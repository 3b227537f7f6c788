/** The kernel as the C code keeps it: control blocks and queues changed in place,
    with the ready bitmap and the cached task to run beside the ready queues.

    View() forgets the caches.  Every method is proved to do to View() what the
    function of the same name in KernelSpec does to a state, and to return true
    (dispatch needed) exactly when dispatching is enabled and the task to run changed. */
module Kernel {
  import opened Lists
  import opened KernelSpec
  import opened KernelInv
  import opened KernelKeeps
  import opened KernelMutex
  import opened KernelSteps
  import opened KernelTasks
  import opened KernelSync
  import opened KernelData
  import opened KernelRun
  import opened SchedCache
  import Bitmap
  import S = KernelSpec
  import Flags = KernelFlags

  class Kernel {
    const inib: seq<Inib>
    const tcb: array<Tcb>
    const ready: array<seq<Tid>>
    const wq: array<seq<Tid>>
    const objs: array<Cb>
    var primap: bv16
    var schedtsk: Option<Tid>
    var runtsk: Option<Tid>
    var intctx: bool
    var ipmflg: bool
    var disdsp: bool
    var dspflg: bool
    var reqflg: bool
    var evts: set<Tid>
    var freeTcb: seq<Tid>

    ghost function View(): State
      reads this, tcb, ready, wq, objs
    {
      State(tcb[..], ready[..], runtsk, intctx, ipmflg, disdsp, dspflg, wq[..], inib, objs[..], evts, freeTcb)
    }

    /** The tables have their sizes and the caches are right. */
    ghost predicate Valid()
      reads this, tcb, ready, wq, objs
    {
      && ready != wq
      && ready.Length == 16 && wq.Length == 2 * |inib| && objs.Length == |inib|
      && (forall o :: 0 <= o < |inib| ==> SameKind(inib[o], objs[o]))
      && Placed(tcb[..], ready[..])
      && Cached(ready[..], primap, schedtsk)
    }

    ghost predicate Out(t: Tid)
      reads ready
    {
      Idle(ready[..], t)
    }

    // ---- task.c ----------------------------------------------------------------

    method SearchSchedtsk() returns (t: Tid)
      requires ready.Length == 16 && Cached(ready[..], primap, Top(ready[..])) && primap != 0
      ensures Some(t) == Top(ready[..])
    {
      var schedpri := Bitmap.Search(primap);
      SearchCached(ready[..], primap, schedpri);
      t := ready[schedpri][0];
    }

    method MakeRunnable(t: Tid) returns (dspreq: bool)
      requires Valid() && t < tcb.Length && Out(t)
      modifies this`primap, this`schedtsk, ready
      ensures Valid() && View() == S.MakeRunnable(old(View()), t)
      ensures dspreq == (dspflg && schedtsk != old(schedtsk))
    {
      hide Bitmap.Has, Bitmap.Set, TopFrom, Top, Placed;
      var pri := tcb[t].pri;
      JoinCached(tcb[..], ready[..], primap, schedtsk, t);
      ready[pri] := ready[pri] + [t];
      primap := Bitmap.Set(primap, pri);
      assert ready[..] == old(ready[..])[pri := old(ready[pri]) + [t]];
      if schedtsk.None? || pri < tcb[schedtsk.value].pri {
        schedtsk := Some(t);
        return dspflg;
      }
      return false;
    }

    method MakeNonRunnable(t: Tid) returns (dspreq: bool)
      requires Valid() && t < tcb.Length && t in ready[tcb[t].pri]
      modifies this`primap, this`schedtsk, ready
      ensures Valid() && View() == S.MakeNonRunnable(old(View()), t) && Out(t)
      ensures dspreq == (dspflg && schedtsk != old(schedtsk))
      ensures schedtsk == old(schedtsk) <==> old(schedtsk) != Some(t)
    {
      hide Bitmap.Has, Bitmap.Clear, Remove, TopFrom, Top, Placed;
      var pri := tcb[t].pri;
      LeaveCached(tcb[..], ready[..], primap, schedtsk, t);
      ready[pri] := Remove(ready[pri], t);
      assert ready[..] == old(ready[..])[pri := Remove(old(ready[pri]), t)];
      if ready[pri] == [] {
        primap := Bitmap.Clear(primap, pri);
        if schedtsk == Some(t) {
          EmptyCached(ready[..], primap, Top(ready[..]));
          if primap == 0 {
            schedtsk := None;
          } else {
            var n := SearchSchedtsk();
            schedtsk := Some(n);
          }
          return dspflg;
        }
      } else if schedtsk == Some(t) {
        schedtsk := Some(ready[pri][0]);
        return dspflg;
      }
      return false;
    }

    method MakeDormant(t: Tid)
      requires Valid() && t < tcb.Length && Out(t)
      modifies tcb
      ensures Valid() && View() == S.MakeDormant(old(View()), t)
    {
      var v := tcb[t];
      tcb[t] := v.(tstat := Dormant, bpri := v.ini.ipri, pri := v.ini.ipri, wupque := false, waifbd := false);
    }

    method MakeActive(t: Tid) returns (dspreq: bool)
      requires Valid() && t < tcb.Length && Out(t)
      modifies this`primap, this`schedtsk, tcb, ready
      ensures Valid() && View() == S.MakeActive(old(View()), t)
      ensures dspreq == (dspflg && schedtsk != old(schedtsk))
    {
      tcb[t] := tcb[t].(tstat := Runnable);
      dspreq := MakeRunnable(t);
    }

    /** The search of queue_insert_tpri: the first task of lower priority. */
    method TpriSearch(list: seq<Tid>, pri: Pri) returns (k: nat)
      requires forall i :: 0 <= i < |list| ==> list[i] < tcb.Length
      ensures k == TpriPos(list, pri, tcb[..])
    {
      k := 0;
      while k < |list| && pri >= tcb[list[k]].pri
        invariant 0 <= k <= |list|
        invariant TpriPos(list, pri, tcb[..]) == k + TpriPos(list[k..], pri, tcb[..])
      {
        assert list[k..][1..] == list[k + 1..];
        k := k + 1;
      }
    }

    /** queue_insert_tpri. */
    method QueueInsertTpri(q: nat, t: Tid)
      requires Valid() && q < wq.Length && t < tcb.Length
      requires forall u :: u in wq[q] ==> u < tcb.Length
      modifies wq
      ensures Valid()
      ensures View() == old(View()).(wq := old(wq[..])[q := InsertTpri(old(wq[q]), t, tcb[t].pri, tcb[..])])
    {
      hide Placed, Cached, InsertTpri, TpriPos;
      assert forall i :: 0 <= i < |wq[q]| ==> wq[q][i] in wq[q];
      var k := TpriSearch(wq[q], tcb[t].pri);
      InsertTpriSplit(wq[q], t, tcb[t].pri, tcb[..]);
      wq[q] := wq[q][..k] + [t] + wq[q][k..];
    }

    /** wobj_queue_insert. */
    method WobjQueueInsert(q: nat, t: Tid)
      requires Valid() && q < wq.Length && t < tcb.Length
      requires forall u :: u in wq[q] ==> u < tcb.Length
      modifies wq
      ensures Valid() && View() == S.Enqueue(old(View()), q, t)
    {
      if q < |inib| && ByPriority(inib[q]) {
        QueueInsertTpri(q, t);
      } else {
        wq[q] := wq[q] + [t];
      }
    }

    /** change_priority. */
    method ChangePriority(t: Tid, newpri: Pri, mtxmode: bool) returns (dspreq: bool)
      requires Valid() && t < tcb.Length
      requires if tcb[t].tstat.Runnable? then t in ready[tcb[t].pri] else Out(t)
      requires forall q, u {:trigger u in wq[q]} :: 0 <= q < wq.Length && u in wq[q] ==> u < tcb.Length
      modifies this`primap, this`schedtsk, tcb, ready, wq
      ensures Valid() && View() == S.ChangePriority(old(View()), t, newpri, mtxmode)
      ensures dspreq == (dspflg && schedtsk != old(schedtsk))
    {
      hide Placed, Cached, S.ChangePriority;
      if tcb[t].tstat.Runnable? {
        dspreq := MoveReady(t, newpri, mtxmode);
      } else {
        MoveWaiting(t, newpri, mtxmode);
        dspreq := false;
      }
    }

    /** The part of change_priority for any other task. */
    method MoveWaiting(t: Tid, newpri: Pri, ghost mtxmode: bool)
      requires Valid() && t < tcb.Length && !tcb[t].tstat.Runnable? && Out(t)
      requires forall q, u {:trigger u in wq[q]} :: 0 <= q < wq.Length && u in wq[q] ==> u < tcb.Length
      modifies tcb, wq
      ensures Valid() && View() == S.ChangePriority(old(View()), t, newpri, mtxmode)
    {
      hide Placed, Cached, InsertTpri, Remove;
      IdlePlaced(tcb[..], ready[..], t, tcb[t].(pri := newpri));
      tcb[t] := tcb[t].(pri := newpri);
      if tcb[t].tstat.Waiting? && tcb[t].tstat.on.Wobj? && tcb[t].tstat.on.q < |inib|
         && ByPriority(inib[tcb[t].tstat.on.q]) {
        var q := tcb[t].tstat.on.q;
        RemoveIn(wq[q], t);
        wq[q] := Remove(wq[q], t);
        WobjQueueInsert(q, t);
      }
    }

    /** The part of change_priority for a runnable task. */
    method MoveReady(t: Tid, newpri: Pri, mtxmode: bool) returns (dspreq: bool)
      requires Valid() && t < tcb.Length && tcb[t].tstat.Runnable? && t in ready[tcb[t].pri]
      modifies this`primap, this`schedtsk, tcb, ready
      ensures Valid() && View() == S.ChangePriority(old(View()), t, newpri, mtxmode)
      ensures dspreq == (dspflg && schedtsk != old(schedtsk))
    {
      hide Bitmap.Has, Placed, Remove, TopFrom, Top;
      var oldpri := tcb[t].pri;
      Requeue(t, newpri, mtxmode);
      if schedtsk == Some(t) {
        if newpri >= oldpri {
          var n := SearchSchedtsk();
          schedtsk := Some(n);
          return n != t && dspflg;
        }
      } else if if mtxmode then newpri <= tcb[schedtsk.value].pri else newpri < tcb[schedtsk.value].pri {
        schedtsk := Some(t);
        return dspflg;
      }
      return false;
    }

    method Requeue(t: Tid, newpri: Pri, mtxmode: bool)
      requires Valid() && t < tcb.Length && tcb[t].tstat.Runnable? && t in ready[tcb[t].pri]
      modifies this`primap, tcb, ready
      ensures View() == S.ChangePriority(old(View()), t, newpri, mtxmode)
      ensures Placed(tcb[..], ready[..]) && Cached(ready[..], primap, Top(ready[..])) && primap != 0
      ensures schedtsk.Some? && schedtsk.value < tcb.Length
      ensures schedtsk == Some(t) && newpri < old(tcb[t].pri) ==> Top(ready[..]) == Some(t)
      ensures schedtsk != Some(t) ==>
        Top(ready[..]) == if (if mtxmode then newpri <= tcb[schedtsk.value].pri else newpri < tcb[schedtsk.value].pri)
                          then Some(t) else schedtsk
    {
      hide Bitmap.Has, Bitmap.Set, Bitmap.Clear, Remove, TopFrom, Top, Placed;
      MoveCached(tcb[..], ready[..], primap, schedtsk, t, newpri, mtxmode);
      Relink(t, newpri, mtxmode);
      SomeBit(primap, newpri);
    }

    /** Out of the queue of the old priority and into the queue of the new one. */
    method Relink(t: Tid, newpri: Pri, mtxmode: bool)
      requires ready.Length == 16 && ready != wq && t < tcb.Length
      modifies this`primap, tcb, ready
      ensures var v := old(tcb[t]); var r := old(ready[..]);
        var q := Remove(r[v.pri], t); var r0 := r[v.pri := q];
        && tcb[..] == old(tcb[..])[t := v.(pri := newpri)]
        && ready[..] == r0[newpri := if mtxmode then [t] + r0[newpri] else r0[newpri] + [t]]
        && primap == Bitmap.Set(if q == [] then Bitmap.Clear(old(primap), v.pri) else old(primap), newpri)
    {
      hide Bitmap.Set, Bitmap.Clear, Remove;
      var oldpri := tcb[t].pri;
      tcb[t] := tcb[t].(pri := newpri);
      ready[oldpri] := Remove(ready[oldpri], t);
      if ready[oldpri] == [] {
        primap := Bitmap.Clear(primap, oldpri);
      }
      if mtxmode {
        ready[newpri] := [t] + ready[newpri];
      } else {
        ready[newpri] := ready[newpri] + [t];
      }
      primap := Bitmap.Set(primap, newpri);
    }

    /** rotate_ready_queue. */
    method RotateReadyQueue(pri: Pri) returns (dspreq: bool)
      requires Valid()
      modifies this`schedtsk, ready
      ensures Valid() && View() == S.RotateReadyQueue(old(View()), pri)
      ensures dspreq == (dspflg && schedtsk != old(schedtsk))
    {
      if |ready[pri]| > 1 {
        RotateCached(tcb[..], ready[..], primap, schedtsk, pri);
        var entry := ready[pri][0];
        ready[pri] := ready[pri][1..] + [entry];
        assert ready[..] == old(ready[..])[pri := old(ready[pri])[1..] + [entry]];
        if schedtsk == Some(entry) {
          schedtsk := Some(ready[pri][0]);
          return dspflg;
        }
      }
      return false;
    }

    // ---- wait.c, wait.h ----------------------------------------------------------

    /** queue_delete_next on wait queue q. */
    method DeleteNext(q: nat) returns (t: Tid)
      requires Valid() && q < wq.Length && wq[q] != []
      modifies wq
      ensures Valid() && t == old(wq[q][0])
      ensures View() == old(View()).(wq := old(wq[..])[q := old(wq[q])[1..]])
    {
      t := wq[q][0];
      wq[q] := wq[q][1..];
    }

    /** make_non_wait. */
    method MakeNonWait(t: Tid) returns (dspreq: bool)
      requires Valid() && t < tcb.Length && tcb[t].tstat.Waiting? && Out(t)
      modifies this`primap, this`schedtsk, tcb, ready
      ensures Valid()
      ensures View() == if old(tcb[t]).tstat.susp
                        then old(View()).(tcb := old(tcb[..])[t := old(tcb[t]).(tstat := Suspended)])
                        else S.MakeActive(old(View()), t)
      ensures dspreq == (dspflg && schedtsk != old(schedtsk))
    {
      if !tcb[t].tstat.susp {
        tcb[t] := tcb[t].(tstat := Runnable);
        dspreq := MakeRunnable(t);
      } else {
        tcb[t] := tcb[t].(tstat := Suspended);
        dspreq := false;
      }
    }

    /** wait_dequeue_tmevtb. */
    method WaitDequeueTmevtb(t: Tid)
      requires t < tcb.Length
      modifies this`evts
      ensures evts == if tcb[t].tmo then old(evts) - {t} else old(evts)
    {
      if tcb[t].tmo {
        evts := evts - {t};
      }
    }

    /** wait_dequeue_wobj. */
    method WaitDequeueWobj(t: Tid)
      requires Valid() && t < tcb.Length && tcb[t].tstat.Waiting?
      requires forall q :: 0 <= q < wq.Length ==> NoDup(wq[q])
      modifies wq
      ensures Valid() && Gone(t)
      ensures View() == old(View()).(wq := S.LeaveWaiting(old(View()), t).wq)
    {
      var on := tcb[t].tstat.on;
      if on.Wobj? && on.q < wq.Length {
        RemoveSpec(wq[on.q], t);
        wq[on.q] := Remove(wq[on.q], t);
      }
    }

    /** t is no longer in the wait queue its state names. */
    ghost predicate Gone(t: Tid)
      reads tcb, wq
    {
      && t < tcb.Length && tcb[t].tstat.Waiting?
      && (tcb[t].tstat.on.Wobj? && tcb[t].tstat.on.q < wq.Length ==> t !in wq[tcb[t].tstat.on.q])
    }

    /** The end of every wait, once the task is out of the wait queue. */
    method WaitEnd(t: Tid, er: Er) returns (dspreq: bool)
      requires Valid() && Gone(t) && Out(t)
      modifies this`primap, this`schedtsk, this`evts, tcb, ready
      ensures Valid() && View() == S.Wake(old(View()), t, er)
      ensures dspreq == (dspflg && schedtsk != old(schedtsk))
    {
      hide Placed, Cached, S.MakeActive, S.Wake;
      WakeForm(View(), t, er);
      Record(t, er);
      dspreq := MakeNonWait(t);
    }

    /** The event block is given up and the result recorded. */
    method Record(t: Tid, er: Er)
      requires Valid() && t < tcb.Length && tcb[t].tstat.Waiting?
      modifies this`evts, tcb
      ensures Valid()
      ensures var s := old(View()); var v := s.tcb[t];
        View() == s.(evts := if v.tmo then s.evts - {t} else s.evts, tcb := s.tcb[t := v.(wercd := er)])
    {
      hide Placed, Cached;
      StatPlaced(tcb[..], ready[..], t, tcb[t].(wercd := er));
      WaitDequeueTmevtb(t);
      tcb[t] := tcb[t].(wercd := er);
    }

    /** wait_complete. */
    method WaitComplete(t: Tid) returns (dspreq: bool)
      requires Valid() && Gone(t) && Out(t)
      modifies this`primap, this`schedtsk, this`evts, tcb, ready
      ensures Valid() && View() == S.Wake(old(View()), t, E_OK)
      ensures dspreq == (dspflg && schedtsk != old(schedtsk))
    {
      dspreq := WaitEnd(t, E_OK);
    }

    /** wait_release, and wait_tmout on an event block the tick has taken off the heap. */
    method WaitRelease(t: Tid, er: Er) returns (dspreq: bool)
      requires Valid() && t < tcb.Length && tcb[t].tstat.Waiting? && Out(t)
      requires forall q :: 0 <= q < wq.Length ==> NoDup(wq[q])
      modifies this`primap, this`schedtsk, this`evts, tcb, ready, wq
      ensures Valid() && View() == S.Wake(old(View()), t, er)
      ensures dspreq == (dspflg && schedtsk != old(schedtsk))
    {
      LeftWake(View(), t, er);
      WaitDequeueWobj(t);
      dspreq := WaitEnd(t, er);
    }

    /** make_wait and make_wait_tmout, with the state the caller sets before. */
    method MakeWait(r: Tid, on: WaitOn, tmo: bool)
      requires Valid() && r < tcb.Length && r in ready[tcb[r].pri]
      modifies this`primap, this`schedtsk, this`evts, tcb, ready
      ensures Valid() && View() == S.MakeWait(old(View()), r, on, tmo)
    {
      hide Placed, Cached, S.MakeNonRunnable, S.MakeWait;
      WaitForm(View(), r, on, tmo);
      StatPlaced(tcb[..], ready[..], r, tcb[r].(tstat := Waiting(false, on)));
      tcb[r] := tcb[r].(tstat := Waiting(false, on));
      var _ := MakeNonRunnable(r);
      SetTmevtb(r, tmo);
    }

    /** p_tmevtb is set, and the event block registered, for a wait with a timeout. */
    method SetTmevtb(r: Tid, tmo: bool)
      requires Valid() && r < tcb.Length
      modifies this`evts, tcb
      ensures Valid()
      ensures View() == old(View()).(tcb := old(tcb[..])[r := old(tcb[r]).(tmo := tmo)],
                                     evts := if tmo then old(evts) + {r} else old(evts))
    {
      hide Placed, Cached;
      StatPlaced(tcb[..], ready[..], r, tcb[r].(tmo := tmo));
      tcb[r] := tcb[r].(tmo := tmo);
      if tmo {
        evts := evts + {r};
      }
    }

    /** wobj_make_wait and wobj_make_wait_tmout. */
    method WobjMakeWait(r: Tid, q: nat, tmo: bool)
      requires Valid() && r < tcb.Length && r in ready[tcb[r].pri] && q < wq.Length
      requires forall u :: u in wq[q] ==> u < tcb.Length
      modifies this`primap, this`schedtsk, this`evts, tcb, ready, wq
      ensures Valid() && View() == S.WobjMakeWait(old(View()), r, q, tmo)
    {
      MakeWait(r, Wobj(q), tmo);
      WobjQueueInsert(q, r);
    }

    /** init_wait_queue. */
    method InitWaitQueue(q: nat) returns (dspreq: bool)
      requires Valid() && Links(View(), {}) && q < wq.Length
      modifies this`primap, this`schedtsk, this`evts, tcb, ready, wq
      ensures Valid() && View() == S.WakeAll(old(View()), old(wq[q]))
      ensures dspreq ==> dspflg
      ensures dspflg && schedtsk != old(schedtsk) ==> dspreq
    {
      hide Placed, Cached, Links, S.Wake;
      dspreq := false;
      while wq[q] != []
        invariant Valid() && Links(View(), {})
        invariant S.WakeAll(View(), wq[q]) == S.WakeAll(old(View()), old(wq[q]))
        invariant dspreq ==> dspflg
        invariant dspflg && schedtsk != old(schedtsk) ==> dspreq
        decreases |wq[q]|
      {
        PopWake(View(), q, E_DLT);
        var t := DeleteNext(q);
        var d := WaitEnd(t, E_DLT);
        if d {
          dspreq := true;
        }
      }
    }

    // ---- mutex.c -------------------------------------------------------------------

    /** mutex_check_ceilpri. */
    method MutexCheckCeilpri(t: Tid, bpri: Pri) returns (ok: bool)
      requires Valid() && t < tcb.Length
      ensures ok == S.CheckCeilpri(View(), t, bpri)
    {
      var held := tcb[t].held;
      var i := 0;
      while i < |held|
        invariant 0 <= i <= |held|
        invariant forall k :: 0 <= k < i ==> CeilOk(inib, bpri, held[k])
      {
        assert held[i] in held;
        if IsCeil(inib, held[i]) && bpri < Ceil(inib, held[i]) {
          assert !CeilOk(inib, bpri, held[i]);
          return false;
        }
        i := i + 1;
      }
      if tcb[t].tstat.Waiting? && tcb[t].tstat.on.Wobj? {
        var m := tcb[t].tstat.on.q;
        if IsCeil(inib, m) && bpri < Ceil(inib, m) {
          return false;
        }
      }
      return true;
    }

    /** mutex_scan_ceilmtx. */
    method MutexScanCeilmtx(t: Tid) returns (found: bool)
      requires Valid() && t < tcb.Length
      ensures found == S.ScanCeilmtx(View(), t)
    {
      var held := tcb[t].held;
      var i := 0;
      while i < |held|
        invariant 0 <= i <= |held|
        invariant forall k :: 0 <= k < i ==> !IsCeil(inib, held[k])
      {
        if IsCeil(inib, held[i]) {
          return true;
        }
        i := i + 1;
      }
      return false;
    }

    /** mutex_calc_priority. */
    method MutexCalcPriority(t: Tid) returns (priority: Pri)
      requires t < tcb.Length
      ensures priority == CalcPri(inib, tcb[t].bpri, tcb[t].held)
    {
      var held := tcb[t].held;
      priority := tcb[t].bpri;
      var i := 0;
      while i < |held|
        invariant 0 <= i <= |held|
        invariant priority == CalcPri(inib, tcb[t].bpri, held[..i])
      {
        CalcSnoc(inib, tcb[t].bpri, held[..i], held[i]);
        assert held[..i + 1] == held[..i] + [held[i]];
        if IsCeil(inib, held[i]) && Ceil(inib, held[i]) < priority {
          priority := Ceil(inib, held[i]);
        }
        i := i + 1;
      }
      assert held[..i] == held;
    }

    /** t may be given to change_priority. */
    ghost predicate Movable(t: Tid)
      reads tcb, ready, wq
    {
      && t < tcb.Length && ready.Length == 16
      && (if tcb[t].tstat.Runnable? then t in ready[tcb[t].pri] else Out(t))
      && (forall q, u {:trigger u in wq[q]} :: 0 <= q < wq.Length && u in wq[q] ==> u < tcb.Length)
    }

    /** mutex_raise_priority. */
    method MutexRaisePriority(t: Tid, newpri: Pri) returns (dspreq: bool)
      requires Valid() && Movable(t)
      modifies this`primap, this`schedtsk, tcb, ready, wq
      ensures Valid() && View() == S.RaisePriority(old(View()), t, newpri)
      ensures dspreq == (dspflg && schedtsk != old(schedtsk))
    {
      dspreq := false;
      if newpri < tcb[t].pri {
        dspreq := ChangePriority(t, newpri, true);
      }
    }

    /** mutex_drop_priority. */
    method MutexDropPriority(t: Tid, oldpri: Pri) returns (dspreq: bool)
      requires Valid() && Movable(t)
      modifies this`primap, this`schedtsk, tcb, ready, wq
      ensures Valid() && View() == S.DropPriority(old(View()), t, oldpri)
      ensures dspreq == (dspflg && schedtsk != old(schedtsk))
    {
      dspreq := false;
      if oldpri == tcb[t].pri {
        var newpri := MutexCalcPriority(t);
        if newpri != tcb[t].pri {
          dspreq := ChangePriority(t, newpri, true);
        }
      }
    }

    /** mutex_acquire. */
    method MutexAcquire(t: Tid, m: nat) returns (dspreq: bool)
      requires Valid() && Movable(t) && IsMtx(View(), m)
      modifies this`primap, this`schedtsk, tcb, ready, wq, objs
      ensures Valid() && View() == S.MutexAcquire(old(View()), t, m)
      ensures dspreq == (dspflg && schedtsk != old(schedtsk))
    {
      hide Placed, Cached, S.RaisePriority;
      objs[m] := MtxCb(Some(t));
      StatPlaced(tcb[..], ready[..], t, tcb[t].(held := [m] + tcb[t].held));
      tcb[t] := tcb[t].(held := [m] + tcb[t].held);
      dspreq := false;
      if inib[m].proto.Ceiling? {
        dspreq := MutexRaisePriority(t, inib[m].proto.c);
      }
    }

    /** mutex_release. */
    method MutexRelease(m: nat, ghost ex: set<Tid>) returns (dspreq: bool)
      requires Valid() && Links(View(), ex) && IsMtx(View(), m)
      modifies this`primap, this`schedtsk, this`evts, tcb, ready, wq, objs
      ensures Valid() && View() == S.MutexRelease(old(View()), m)
      ensures dspreq == (dspflg && schedtsk != old(schedtsk))
    {
      hide Placed, Cached, S.MutexRelease, Handed, ReadyOk, WaitOk, OrderOk, EvtOk;
      ReleaseSteps(View(), m, ex);
      if wq[m] == [] {
        objs[m] := MtxCb(None);
        dspreq := false;
      } else {
        dspreq := HandHead(m);
      }
    }

    /** The first waiting task is taken off the queue and becomes the owner. */
    method HandHead(m: nat) returns (dspreq: bool)
      requires Valid() && IsMtx(View(), m) && wq[m] != [] && wq[m][0] < tcb.Length
      requires tcb[wq[m][0]].tstat.Waiting? && Out(wq[m][0])
      modifies this`primap, this`schedtsk, this`evts, tcb, ready, wq, objs
      ensures Valid()
      ensures var s := old(View()); var t := s.wq[m][0];
        View() == Handed(s.(wq := s.wq[m := s.wq[m][1..]], objs := s.objs[m := MtxCb(Some(t))],
                            evts := if s.tcb[t].tmo then s.evts - {t} else s.evts), m, t)
      ensures dspreq == (dspflg && schedtsk != old(schedtsk))
    {
      hide Placed, Cached, Handed, Idle;
      var t := DeleteNext(m);
      WaitDequeueTmevtb(t);
      objs[m] := MtxCb(Some(t));
      dspreq := Hand(m, t);
    }

    /** The rest of mutex_release: task t takes the mutex and its wait ends. */
    method Hand(m: nat, t: Tid) returns (dspreq: bool)
      requires Valid() && IsMtx(View(), m) && t < tcb.Length && tcb[t].tstat.Waiting? && Out(t)
      modifies this`primap, this`schedtsk, tcb, ready
      ensures Valid() && View() == Handed(old(View()), m, t)
      ensures dspreq == (dspflg && schedtsk != old(schedtsk))
    {
      hide Cached, Placed, S.MakeActive, Heir;
      HeirGranted(View(), m, tcb[t]);
      Inherit(m, t);
      dspreq := MakeNonWait(t);
    }

    method Inherit(m: nat, t: Tid)
      requires Valid() && IsMtx(View(), m) && t < tcb.Length && Out(t)
      modifies tcb
      ensures Valid() && View() == old(View()).(tcb := old(tcb[..])[t := Heir(old(View()), m, old(tcb[t]))])
    {
      hide Cached, Placed;
      var pri := tcb[t].pri;
      if inib[m].proto.Ceiling? && inib[m].proto.c < pri {
        pri := inib[m].proto.c;
      }
      IdlePlaced(tcb[..], ready[..], t, Heir(View(), m, tcb[t]));
      tcb[t] := tcb[t].(wercd := E_OK, held := tcb[t].held + [m], pri := pri);
    }

    /** mutex_release_all. */
    method MutexReleaseAll(t: Tid) returns (dspreq: bool)
      requires Valid() && t < tcb.Length && Good(View(), {t}, {}) && ObjsOk(View())
      modifies this`primap, this`schedtsk, this`evts, tcb, ready, wq, objs
      ensures Valid() && View() == S.ReleaseAll(old(View()), t, old(tcb[t].held))
      ensures dspreq ==> dspflg
      ensures dspflg && schedtsk != old(schedtsk) ==> dspreq
    {
      hide Placed, Cached, Links, FreeOk, MtxOk, ObjsOk, S.MutexRelease;
      dspreq := false;
      while tcb[t].held != []
        invariant Valid() && Good(View(), {t}, {}) && ObjsOk(View())
        invariant S.ReleaseAll(View(), t, tcb[t].held) == S.ReleaseAll(old(View()), t, old(tcb[t].held))
        invariant dspreq ==> dspflg
        invariant dspflg && schedtsk != old(schedtsk) ==> dspreq
        decreases |tcb[t].held|
      {
        var d := ReleaseFirst(t);
        if d {
          dspreq := true;
        }
      }
    }

    /** The first mutex of the list is released. */
    method ReleaseFirst(t: Tid) returns (dspreq: bool)
      requires Valid() && t < tcb.Length && Good(View(), {t}, {}) && ObjsOk(View()) && tcb[t].held != []
      modifies this`primap, this`schedtsk, this`evts, tcb, ready, wq, objs
      ensures Valid() && Good(View(), {t}, {}) && ObjsOk(View()) && IsMtx(old(View()), old(tcb[t].held[0]))
      ensures View() == S.MutexRelease(SetHeld(old(View()), t, old(tcb[t].held[1..])), old(tcb[t].held[0]))
      ensures tcb[t].held == old(tcb[t].held[1..])
      ensures dspreq == (dspflg && schedtsk != old(schedtsk))
    {
      hide Placed, Cached, Links, FreeOk, MtxOk, ObjsOk, S.MutexRelease;
      ghost var s0 := View();
      var m := tcb[t].held[0];
      PopGood(s0, t, {t});
      StatPlaced(tcb[..], ready[..], t, tcb[t].(held := tcb[t].held[1..]));
      tcb[t] := tcb[t].(held := tcb[t].held[1..]);
      assert View() == SetHeld(s0, t, s0.tcb[t].held[1..]);
      ReleaseGood(View(), m, {t});
      dspreq := MutexRelease(m, {t});
    }

    // ---- service calls ---------------------------------------------------------------

    /** Between calls: the kernel invariant holds, the caches are right, and inside
        handlers a pending switch is on record. */
    ghost predicate OK()
      reads this, tcb, ready, wq, objs
    {
      && Valid() && Inv(View())
      && (!intctx && dspflg ==> runtsk == schedtsk)
      && (intctx && dspflg && runtsk != schedtsk ==> reqflg)
    }

    /** A call by the running task. */
    ghost predicate Task()
      reads this, tcb, ready, wq, objs
    {
      OK() && !intctx && runtsk.Some? && runtsk.value < tcb.Length && tcb[runtsk.value].tstat.Runnable?
    }

    /** if (dspreq) dispatch(); */
    method DispatchIf(dspreq: bool)
      requires Valid() && (dspreq ==> dspflg) && (dspflg && runtsk != schedtsk ==> dspreq)
      modifies this`runtsk
      ensures Valid() && View() == S.Settle(old(View())) && (dspflg ==> runtsk == schedtsk)
    {
      if dspreq {
        runtsk := schedtsk;
      }
    }

    /** if (dspreq) reqflg = true; */
    method RequestIf(dspreq: bool)
      modifies this`reqflg
      ensures reqflg == (old(reqflg) || dspreq)
    {
      if dspreq {
        reqflg := true;
      }
    }

    method ActBody(t: Tid) returns (er: Er, dspreq: bool)
      requires Valid() && Core(View())
      modifies this`primap, this`schedtsk, this`evts, tcb, ready, wq, objs
      ensures Valid() && (View(), er) == S.ActTsk(old(View()), t)
      ensures dspreq ==> dspflg
      ensures dspflg && schedtsk != old(schedtsk) ==> dspreq
    {
      hide WaitOk, OrderOk, EvtOk, OwnOk, PriOk, ObjOk, Placed, Cached, S.MakeActive;
      if t >= tcb.Length {
        return E_ID, false;
      }
      if !tcb[t].exs {
        return E_NOEXS, false;
      }
      if tcb[t].tstat.Dormant? {
        dspreq := MakeActive(t);
        return E_OK, dspreq;
      }
      if !tcb[t].actque {
        StatPlaced(tcb[..], ready[..], t, tcb[t].(actque := true));
        tcb[t] := tcb[t].(actque := true);
        return E_OK, false;
      }
      return E_QOVR, false;
    }

    method ActTsk(t: Tid) returns (er: Er)
      requires Task()
      modifies this, tcb, ready, wq, objs
      ensures OK() && (View(), er) == Step(old(View()), Manage(OpActTsk(t)))
    {
      hide ReadyOk, WaitOk, OrderOk, EvtOk, OwnOk, PriOk, ObjOk, Placed, Cached, S.ActTsk;
      StepInv(View(), Manage(OpActTsk(t)));
      var dspreq;
      er, dspreq := ActBody(t);
      DispatchIf(dspreq);
    }

    method IactTsk(t: Tid) returns (er: Er)
      requires OK() && intctx
      modifies this, tcb, ready, wq, objs
      ensures OK() && (View(), er) == Step(old(View()), Int(OpIActTsk(t)))
    {
      hide ReadyOk, WaitOk, OrderOk, EvtOk, OwnOk, PriOk, ObjOk, Placed, Cached, S.ActTsk;
      StepInv(View(), Int(OpIActTsk(t)));
      var dspreq;
      er, dspreq := ActBody(t);
      RequestIf(dspreq);
    }

    // ---- task_manage.c ---------------------------------------------------------------

    /** The end of ext_tsk and ter_tsk, on a task already out of every queue. */
    method FinishTask(t: Tid) returns (dspreq: bool)
      requires Valid() && t < tcb.Length && Good(View(), {t}, {}) && ObjsOk(View())
      modifies this`primap, this`schedtsk, this`evts, tcb, ready, wq, objs
      ensures Valid() && View() == S.Finish(old(View()), t)
      ensures dspreq ==> dspflg
      ensures dspflg && schedtsk != old(schedtsk) ==> dspreq
    {
      hide WaitOk, OrderOk, EvtOk, OwnOk, PriOk, ObjOk, Placed, Cached, S.ReleaseAll, S.Restart;
      ReleaseAllGood(View(), t, {t});
      ghost var s1 := S.ReleaseAll(View(), t, tcb[t].held);
      dspreq := false;
      if tcb[t].held != [] {
        dspreq := MutexReleaseAll(t);
      } else {
        ReleaseNone(View(), t);
      }
      TransitOut(s1, t);
      MakeDormant(t);
      var d := RestartTask(t);
      if d {
        dspreq := true;
      }
    }

    method RestartTask(t: Tid) returns (dspreq: bool)
      requires Valid() && t < tcb.Length && Out(t)
      modifies this`primap, this`schedtsk, tcb, ready
      ensures Valid() && View() == S.Restart(old(View()), t)
      ensures dspreq == (dspflg && schedtsk != old(schedtsk))
    {
      hide Placed, Cached, S.MakeActive;
      dspreq := false;
      if tcb[t].actque {
        StatPlaced(tcb[..], ready[..], t, tcb[t].(actque := false));
        tcb[t] := tcb[t].(actque := false);
        dspreq := MakeActive(t);
      }
    }

    /** ext_tsk. */
    method ExtTsk() returns (er: Er)
      requires Task()
      modifies this, tcb, ready, wq, objs
      ensures OK() && (View(), er) == Step(old(View()), Manage(OpExtTsk))
    {
      hide Inv, Core, Links, Step, Placed, Cached, S.Finish, S.MakeNonRunnable;
      TaskCall(View(), Manage(OpExtTsk));
      var r := runtsk.value;
      if disdsp {
        disdsp := false;
      }
      if !ipmflg {
        ipmflg := true;
      }
      dspflg := true;
      ghost var s1 := View();
      ExtStart(old(View()), s1, r);
      var _ := MakeNonRunnable(r);
      var _ := FinishTask(r);
      DispatchIf(true);
      er := Blocked;
    }

    /** ter_tsk. */
    method TerTsk(t: Tid) returns (er: Er)
      requires Task()
      modifies this, tcb, ready, wq, objs
      ensures OK() && (View(), er) == Step(old(View()), Manage(OpTerTsk(t)))
    {
      hide ReadyOk, WaitOk, OrderOk, EvtOk, OwnOk, PriOk, ObjOk, Placed, Cached, S.Finish, S.MakeNonRunnable, S.LeaveWaiting;
      StepInv(View(), Manage(OpTerTsk(t)));
      if t >= tcb.Length {
        return E_ID;
      }
      if t == runtsk.value {
        return E_ILUSE;
      }
      if !tcb[t].exs {
        return E_NOEXS;
      }
      if tcb[t].tstat.Dormant? {
        return E_OBJ;
      }
      DetachGood(View(), t);
      Detach(t);
      var dspreq := FinishTask(t);
      DispatchIf(dspreq);
      return E_OK;
    }

    /** The first part of ter_tsk; a runnable task that is not running is not the task
        to run while dispatching is enabled. */
    method Detach(t: Tid)
      requires Valid() && Inv(View()) && t < tcb.Length && !tcb[t].tstat.Dormant? && runtsk != Some(t)
      requires dspflg ==> runtsk == schedtsk
      modifies this`primap, this`schedtsk, this`evts, tcb, ready, wq, objs
      ensures Valid() && View() == S.Detach(old(View()), t) && (dspflg ==> schedtsk == old(schedtsk))
    {
      hide ReadyOk, WaitOk, OrderOk, EvtOk, OwnOk, PriOk, ObjOk, Cached, Placed, Remove, Top, TopFrom, S.MakeNonRunnable;
      RunQueued(View(), t);
      if tcb[t].tstat.Runnable? {
        var _ := MakeNonRunnable(t);
      } else if tcb[t].tstat.Waiting? {
        WaitDequeueWobj(t);
        WaitDequeueTmevtb(t);
      }
    }

    /** chg_pri; None stands for TPRI_INI. */
    method ChgPri(t: Tid, tskpri: Option<Pri>) returns (er: Er)
      requires Task()
      modifies this, tcb, ready, wq, objs
      ensures OK() && (View(), er) == Step(old(View()), Manage(OpChgPri(t, tskpri)))
    {
      hide ReadyOk, WaitOk, OrderOk, EvtOk, OwnOk, PriOk, ObjOk, Placed, Cached, S.CheckCeilpri, S.ScanCeilmtx, S.ChangePriority;
      StepInv(View(), Manage(OpChgPri(t, tskpri)));
      var r := runtsk.value;
      if t >= tcb.Length {
        return E_ID;
      }
      if !tcb[t].exs {
        return E_NOEXS;
      }
      if tcb[t].tstat.Dormant? {
        return E_OBJ;
      }
      var newbpri := if tskpri.None? then tcb[t].ini.ipri else tskpri.value;
      if newbpri < tcb[r].ini.minpri {
        return E_ILUSE;
      }
      var ok := MutexCheckCeilpri(t, newbpri);
      if !ok {
        return E_ILUSE;
      }
      var ceil := MutexScanCeilmtx(t);
      Rebase(t, newbpri, !ceil);
      return E_OK;
    }

    /** The end of chg_pri. */
    method Rebase(t: Tid, newbpri: Pri, follow: bool)
      requires Valid() && Links(View(), {}) && t < tcb.Length && (dspflg ==> runtsk == schedtsk)
      modifies this`primap, this`schedtsk, this`runtsk, tcb, ready, wq
      ensures Valid() && (dspflg ==> runtsk == schedtsk)
      ensures var s1 := old(View()).(tcb := old(tcb[..])[t := old(tcb[t]).(bpri := newbpri)]);
        View() == if follow then S.Settle(S.ChangePriority(s1, t, newbpri, false)) else s1
    {
      hide ReadyOk, WaitOk, OrderOk, EvtOk, Placed, Cached, S.ChangePriority;
      RunQueued(View(), t);
      StatPlaced(tcb[..], ready[..], t, tcb[t].(bpri := newbpri));
      tcb[t] := tcb[t].(bpri := newbpri);
      if follow {
        var dspreq := ChangePriority(t, newbpri, false);
        DispatchIf(dspreq);
      }
    }

    /** acre_tsk, its state part: what make_active returns is ignored, so with TA_ACT
        dispatching can be left pending. */
    method AcreTsk(ipri: Pri, act: bool) returns (er: Er)
      requires Task()
      modifies this, tcb, ready, wq, objs
      ensures Valid() && (View(), er) == Step(old(View()), Manage(OpAcreTsk(ipri, act)))
      ensures Admits(old(View()), Manage(OpAcreTsk(ipri, act))) ==> OK()
    {
      hide ReadyOk, WaitOk, OrderOk, EvtOk, OwnOk, PriOk, ObjOk, Placed, S.MakeDormant, S.MakeActive;
      AcreAdmitted(View(), ipri, act);
      if freeTcb == [] {
        return E_NOID;
      }
      FreeOut(View());
      var t := freeTcb[0];
      freeTcb := freeTcb[1..];
      StatPlaced(tcb[..], ready[..], t, tcb[t].(exs := true, ini := tcb[t].ini.(ipri := ipri), actque := false, held := []));
      tcb[t] := tcb[t].(exs := true, ini := tcb[t].ini.(ipri := ipri), actque := false, held := []);
      MakeDormant(t);
      if act {
        var _ := MakeActive(t);
      }
      return E_OK;
    }

    /** del_tsk. */
    method DelTsk(t: Tid) returns (er: Er)
      requires Task()
      modifies this, tcb, ready, wq, objs
      ensures OK() && (View(), er) == Step(old(View()), Manage(OpDelTsk(t)))
    {
      hide ReadyOk, WaitOk, OrderOk, EvtOk, OwnOk, PriOk, ObjOk, Placed, Cached;
      StepInv(View(), Manage(OpDelTsk(t)));
      if t >= tcb.Length {
        return E_ID;
      }
      if !tcb[t].exs {
        return E_NOEXS;
      }
      if !(tcb[t].ini.dyn && tcb[t].tstat.Dormant?) {
        return E_OBJ;
      }
      StatPlaced(tcb[..], ready[..], t, tcb[t].(exs := false));
      tcb[t] := tcb[t].(exs := false);
      freeTcb := freeTcb + [t];
      return E_OK;
    }

    // ---- task_sync.c -------------------------------------------------------------------

    /** slp_tsk and tslp_tsk. */
    method SlpTsk(tmo: Tmo) returns (er: Er)
      requires Task()
      modifies this, tcb, ready, wq, objs
      ensures OK() && (View(), er) == Step(old(View()), Manage(OpSlpTsk(tmo)))
    {
      hide ReadyOk, WaitOk, OrderOk, EvtOk, OwnOk, PriOk, ObjOk, Placed, Cached, S.MakeWait;
      StepInv(View(), Manage(OpSlpTsk(tmo)));
      if !dspflg {
        return E_CTX;
      }
      var r := runtsk.value;
      RunQueued(View(), r);
      if tcb[r].wupque {
        StatPlaced(tcb[..], ready[..], r, tcb[r].(wupque := false));
        tcb[r] := tcb[r].(wupque := false);
        return E_OK;
      }
      if tmo == Pol {
        return E_TMOUT;
      }
      if tcb[r].waifbd {
        return E_RLWAI;
      }
      MakeWait(r, Slp, tmo == After);
      DispatchIf(true);
      return Blocked;
    }

    /** dly_tsk. */
    method DlyTsk() returns (er: Er)
      requires Task()
      modifies this, tcb, ready, wq, objs
      ensures OK() && (View(), er) == Step(old(View()), Manage(OpDlyTsk))
    {
      hide ReadyOk, WaitOk, OrderOk, EvtOk, OwnOk, PriOk, ObjOk, Placed, Cached, S.MakeWait;
      StepInv(View(), Manage(OpDlyTsk));
      if !dspflg {
        return E_CTX;
      }
      var r := runtsk.value;
      RunQueued(View(), r);
      if tcb[r].waifbd {
        return E_RLWAI;
      }
      MakeWait(r, Dly, true);
      DispatchIf(true);
      return Blocked;
    }

    /** What wup_tsk and iwup_tsk share. */
    method WupBody(t: Tid) returns (er: Er, dspreq: bool)
      requires Valid() && Core(View())
      modifies this`primap, this`schedtsk, this`evts, tcb, ready, wq, objs
      ensures Valid() && (View(), er) == S.WupTsk(old(View()), t)
      ensures dspreq ==> dspflg
      ensures dspflg && schedtsk != old(schedtsk) ==> dspreq
    {
      hide ReadyOk, WaitOk, OrderOk, EvtOk, OwnOk, PriOk, ObjOk, Placed, Cached, S.Wake;
      if t >= tcb.Length {
        return E_ID, false;
      }
      if !tcb[t].exs {
        return E_NOEXS, false;
      }
      if tcb[t].tstat.Dormant? {
        return E_OBJ, false;
      }
      RunQueued(View(), t);
      if tcb[t].tstat.Waiting? && tcb[t].tstat.on == Slp {
        dspreq := WaitComplete(t);
        return E_OK, dspreq;
      }
      if !tcb[t].wupque {
        StatPlaced(tcb[..], ready[..], t, tcb[t].(wupque := true));
        tcb[t] := tcb[t].(wupque := true);
        return E_OK, false;
      }
      return E_QOVR, false;
    }

    /** wup_tsk. */
    method WupTsk(t: Tid) returns (er: Er)
      requires Task()
      modifies this, tcb, ready, wq, objs
      ensures OK() && (View(), er) == Step(old(View()), Manage(OpWupTsk(t)))
    {
      hide ReadyOk, WaitOk, OrderOk, EvtOk, OwnOk, PriOk, ObjOk, Placed, Cached, S.WupTsk;
      StepInv(View(), Manage(OpWupTsk(t)));
      var dspreq;
      er, dspreq := WupBody(t);
      DispatchIf(dspreq);
    }

    /** iwup_tsk. */
    method IwupTsk(t: Tid) returns (er: Er)
      requires OK() && intctx
      modifies this, tcb, ready, wq, objs
      ensures OK() && (View(), er) == Step(old(View()), Int(OpIWupTsk(t)))
    {
      hide ReadyOk, WaitOk, OrderOk, EvtOk, OwnOk, PriOk, ObjOk, Placed, Cached, S.WupTsk;
      StepInv(View(), Int(OpIWupTsk(t)));
      var dspreq;
      er, dspreq := WupBody(t);
      RequestIf(dspreq);
    }

    /** What rel_wai and irel_wai share. */
    method RelBody(t: Tid) returns (er: Er, dspreq: bool)
      requires Valid() && Core(View())
      modifies this`primap, this`schedtsk, this`evts, tcb, ready, wq, objs
      ensures Valid() && (View(), er) == S.RelWai(old(View()), t)
      ensures dspreq ==> dspflg
      ensures dspflg && schedtsk != old(schedtsk) ==> dspreq
    {
      hide ReadyOk, WaitOk, OrderOk, EvtOk, OwnOk, PriOk, ObjOk, Placed, Cached, S.Wake;
      if t >= tcb.Length {
        return E_ID, false;
      }
      if !tcb[t].exs {
        return E_NOEXS, false;
      }
      if !tcb[t].tstat.Waiting? {
        return E_OBJ, false;
      }
      RunQueued(View(), t);
      dspreq := WaitRelease(t, E_RLWAI);
      return E_OK, dspreq;
    }

    /** rel_wai. */
    method RelWai(t: Tid) returns (er: Er)
      requires Task()
      modifies this, tcb, ready, wq, objs
      ensures OK() && (View(), er) == Step(old(View()), Manage(OpRelWai(t)))
    {
      hide ReadyOk, WaitOk, OrderOk, EvtOk, OwnOk, PriOk, ObjOk, Placed, Cached, S.RelWai;
      StepInv(View(), Manage(OpRelWai(t)));
      var dspreq;
      er, dspreq := RelBody(t);
      DispatchIf(dspreq);
    }

    /** irel_wai. */
    method IrelWai(t: Tid) returns (er: Er)
      requires OK() && intctx
      modifies this, tcb, ready, wq, objs
      ensures OK() && (View(), er) == Step(old(View()), Int(OpIRelWai(t)))
    {
      hide ReadyOk, WaitOk, OrderOk, EvtOk, OwnOk, PriOk, ObjOk, Placed, Cached, S.RelWai;
      StepInv(View(), Int(OpIRelWai(t)));
      var dspreq;
      er, dspreq := RelBody(t);
      RequestIf(dspreq);
    }

    /** wait_tmout and wait_tmout_ok, called by the tick for a due event block. */
    method WaitTmout(t: Tid) returns (er: Er)
      requires OK() && intctx
      modifies this, tcb, ready, wq, objs
      ensures OK() && (View(), er) == Step(old(View()), Int(OpTimeout(t)))
    {
      hide Inv, Core, Links, Step, Placed, Cached, S.Wake;
      HandlerCall(View(), OpTimeout(t));
      if t in evts && t < tcb.Length && tcb[t].tstat.Waiting? {
        RunQueued(View(), t);
        var dspreq := WaitRelease(t, if tcb[t].tstat.on == Dly then E_OK else E_TMOUT);
        RequestIf(dspreq);
      }
      return E_OK;
    }

    /** sus_tsk. */
    method SusTsk(t: Tid) returns (er: Er)
      requires Task()
      modifies this, tcb, ready, wq, objs
      ensures OK() && (View(), er) == Step(old(View()), Manage(OpSusTsk(t)))
    {
      hide Inv, Core, Links, Step, Placed, Cached, S.MakeNonRunnable;
      TaskCall(View(), Manage(OpSusTsk(t)));
      if t >= tcb.Length {
        return E_ID;
      }
      if runtsk == Some(t) && !dspflg {
        return E_CTX;
      }
      if !tcb[t].exs {
        return E_NOEXS;
      }
      var v := tcb[t];
      if v.tstat.Dormant? {
        return E_OBJ;
      }
      if v.tstat.Runnable? {
        RunQueued(View(), t);
        SuspendReady(t);
        return E_OK;
      }
      if v.tstat.Suspended? || v.tstat.susp {
        return E_QOVR;
      }
      StatPlaced(tcb[..], ready[..], t, v.(tstat := Waiting(true, v.tstat.on)));
      tcb[t] := v.(tstat := Waiting(true, v.tstat.on));
      return E_OK;
    }

    /** A runnable task is suspended. */
    method SuspendReady(t: Tid)
      requires Valid() && t < tcb.Length && tcb[t].tstat.Runnable? && t in ready[tcb[t].pri]
      requires dspflg ==> runtsk == schedtsk
      modifies this`primap, this`schedtsk, this`runtsk, tcb, ready
      ensures Valid() && (dspflg ==> runtsk == schedtsk)
      ensures var s1 := old(View()).(tcb := old(tcb[..])[t := old(tcb[t]).(tstat := Suspended)]);
        View() == S.Settle(S.MakeNonRunnable(s1, t))
    {
      hide Placed, Cached, S.MakeNonRunnable;
      StatPlaced(tcb[..], ready[..], t, tcb[t].(tstat := Suspended));
      tcb[t] := tcb[t].(tstat := Suspended);
      var dspreq := MakeNonRunnable(t);
      DispatchIf(dspreq);
    }

    /** rsm_tsk. */
    method RsmTsk(t: Tid) returns (er: Er)
      requires Task()
      modifies this, tcb, ready, wq, objs
      ensures OK() && (View(), er) == Step(old(View()), Manage(OpRsmTsk(t)))
    {
      hide ReadyOk, WaitOk, OrderOk, EvtOk, OwnOk, PriOk, ObjOk, Placed, Cached, S.MakeActive;
      StepInv(View(), Manage(OpRsmTsk(t)));
      if t >= tcb.Length {
        return E_ID;
      }
      if !tcb[t].exs {
        return E_NOEXS;
      }
      var v := tcb[t];
      if !(v.tstat.Suspended? || (v.tstat.Waiting? && v.tstat.susp)) {
        return E_OBJ;
      }
      RunQueued(View(), t);
      if !v.tstat.Waiting? {
        var dspreq := MakeActive(t);
        DispatchIf(dspreq);
        return E_OK;
      }
      StatPlaced(tcb[..], ready[..], t, v.(tstat := Waiting(false, v.tstat.on)));
      tcb[t] := v.(tstat := Waiting(false, v.tstat.on));
      return E_OK;
    }

    /** dis_wai. */
    method DisWai(t: Tid, texmask: bool) returns (er: Er)
      requires Task()
      modifies this, tcb, ready, wq, objs
      ensures OK() && (View(), er) == Step(old(View()), Manage(OpDisWai(t, texmask)))
    {
      hide ReadyOk, WaitOk, OrderOk, EvtOk, OwnOk, PriOk, ObjOk, Placed, Cached;
      StepInv(View(), Manage(OpDisWai(t, texmask)));
      if t >= tcb.Length {
        return E_ID;
      }
      if !tcb[t].exs {
        return E_NOEXS;
      }
      if tcb[t].tstat.Dormant? {
        return E_OBJ;
      }
      if tcb[t].waifbd {
        return E_QOVR;
      }
      if texmask {
        StatPlaced(tcb[..], ready[..], t, tcb[t].(waifbd := true));
        tcb[t] := tcb[t].(waifbd := true);
        return E_OK;
      }
      return E_OBJ;
    }

    /** ena_wai. */
    method EnaWai(t: Tid) returns (er: Er)
      requires Task()
      modifies this, tcb, ready, wq, objs
      ensures OK() && (View(), er) == Step(old(View()), Manage(OpEnaWai(t)))
    {
      hide ReadyOk, WaitOk, OrderOk, EvtOk, OwnOk, PriOk, ObjOk, Placed, Cached;
      StepInv(View(), Manage(OpEnaWai(t)));
      if t >= tcb.Length {
        return E_ID;
      }
      if !tcb[t].exs {
        return E_NOEXS;
      }
      if tcb[t].tstat.Dormant? || !tcb[t].waifbd {
        return E_OBJ;
      }
      StatPlaced(tcb[..], ready[..], t, tcb[t].(waifbd := false));
      tcb[t] := tcb[t].(waifbd := false);
      return E_OK;
    }

    // ---- sys_manage.c, interrupt.c ------------------------------------------------------

    /** dis_dsp. */
    method DisDsp() returns (er: Er)
      requires Task()
      modifies this, tcb, ready, wq, objs
      ensures OK() && (View(), er) == Step(old(View()), Manage(OpDisDsp))
    {
      hide ReadyOk, WaitOk, OrderOk, EvtOk, OwnOk, PriOk, ObjOk, Placed, Cached;
      StepInv(View(), Manage(OpDisDsp));
      disdsp := true;
      dspflg := false;
      return E_OK;
    }

    /** ena_dsp. */
    method EnaDsp() returns (er: Er)
      requires Task()
      modifies this, tcb, ready, wq, objs
      ensures OK() && (View(), er) == Step(old(View()), Manage(OpEnaDsp))
    {
      hide Inv, Core, Links, Step, Placed, Cached;
      TaskCall(View(), Manage(OpEnaDsp));
      CachedTop(ready[..], primap, schedtsk);
      disdsp := false;
      if ipmflg {
        dspflg := true;
        if runtsk != schedtsk {
          runtsk := schedtsk;
        }
      }
      return E_OK;
    }

    /** chg_ipm; enaall stands for TIPM_ENAALL. */
    method ChgIpm(enaall: bool) returns (er: Er)
      requires Task()
      modifies this, tcb, ready, wq, objs
      ensures OK() && (View(), er) == Step(old(View()), Manage(OpChgIpm(enaall)))
    {
      hide Inv, Core, Links, Step, Placed, Cached;
      TaskCall(View(), Manage(OpChgIpm(enaall)));
      CachedTop(ready[..], primap, schedtsk);
      if enaall {
        ipmflg := true;
        if !disdsp {
          dspflg := true;
          if runtsk != schedtsk {
            runtsk := schedtsk;
          }
        }
      } else {
        ipmflg := false;
        dspflg := false;
      }
      return E_OK;
    }

    /** rot_rdq. */
    method RotRdq(p: Option<Pri>) returns (er: Er)
      requires Task()
      modifies this, tcb, ready, wq, objs
      ensures OK() && (View(), er) == Step(old(View()), Manage(OpRotRdq(p)))
    {
      hide ReadyOk, WaitOk, OrderOk, EvtOk, OwnOk, PriOk, ObjOk, Placed, Cached, S.RotateReadyQueue;
      StepInv(View(), Manage(OpRotRdq(p)));
      var dspreq := RotateReadyQueue(if p.None? then tcb[runtsk.value].bpri else p.value);
      DispatchIf(dspreq);
      return E_OK;
    }

    /** irot_rdq. */
    method IrotRdq(p: Pri) returns (er: Er)
      requires OK() && intctx
      modifies this, tcb, ready, wq, objs
      ensures OK() && (View(), er) == Step(old(View()), Int(OpIRotRdq(p)))
    {
      hide ReadyOk, WaitOk, OrderOk, EvtOk, OwnOk, PriOk, ObjOk, Placed, Cached, S.RotateReadyQueue;
      StepInv(View(), Int(OpIRotRdq(p)));
      var dspreq := RotateReadyQueue(p);
      RequestIf(dspreq);
      return E_OK;
    }

    /** An interrupt handler starts. */
    method EnterInt()
      requires OK()
      modifies this`intctx
      ensures OK() && intctx && View() == Step(old(View()), IntEnter).0
    {
      hide ReadyOk, WaitOk, OrderOk, EvtOk, OwnOk, PriOk, ObjOk, Placed, Cached;
      StepInv(View(), IntEnter);
      intctx := true;
    }

    /** The outermost handler ends: a dispatch asked for in a handler is made up for. */
    method ExitInt() returns (er: Er)
      requires OK() && intctx
      modifies this`intctx, this`reqflg, this`runtsk
      ensures OK() && (View(), er) == Step(old(View()), Int(OpIntExit))
    {
      hide ReadyOk, WaitOk, OrderOk, EvtOk, OwnOk, PriOk, ObjOk, Placed, Cached;
      StepInv(View(), Int(OpIntExit));
      CachedTop(ready[..], primap, schedtsk);
      intctx := false;
      if reqflg {
        reqflg := false;
        if dspflg {
          runtsk := schedtsk;
        }
      }
      er := E_OK;
    }

    // ---- mutex.c, the service calls ------------------------------------------------------

    /** loc_mtx, ploc_mtx and tloc_mtx once the context is checked. */
    method LocBody(r: Tid, m: nat, tmo: Tmo) returns (er: Er)
      requires Task() && runtsk == Some(r) && (dspflg || tmo == Pol)
      modifies this, tcb, ready, wq, objs
      ensures Valid() && (View(), er) == S.LocMtx(old(View()), r, m, tmo)
      ensures (dspflg ==> runtsk == schedtsk) && reqflg == old(reqflg)
    {
      hide ReadyOk, WaitOk, OrderOk, EvtOk, OwnOk, PriOk, ObjOk, Placed, Cached, S.MutexAcquire, S.WobjMakeWait;
      LocMtxInv(View(), r, m, tmo);
      RunQueued(View(), r);
      if m >= |inib| || !inib[m].MtxInib? {
        return E_ID;
      }
      if inib[m].proto.Ceiling? && tcb[r].bpri < inib[m].proto.c {
        return E_ILUSE;
      }
      if objs[m].loctsk == None {
        var _ := MutexAcquire(r, m);
        CachedTop(ready[..], primap, schedtsk);
        assert !(runtsk != schedtsk && dspflg);
        return E_OK;
      }
      if objs[m].loctsk == Some(r) {
        return E_OBJ;
      }
      if tmo == Pol {
        return E_TMOUT;
      }
      if tcb[r].waifbd {
        return E_RLWAI;
      }
      WobjMakeWait(r, m, tmo == After);
      DispatchIf(true);
      return Blocked;
    }

    /** loc_mtx and tloc_mtx. */
    method LocMtx(m: nat, tmo: Tmo) returns (er: Er)
      requires Task()
      modifies this, tcb, ready, wq, objs
      ensures OK() && (View(), er) == Step(old(View()), Sync(OpLocMtx(m, tmo)))
    {
      hide ReadyOk, WaitOk, OrderOk, EvtOk, OwnOk, PriOk, ObjOk, Placed, Cached, S.LocMtx;
      StepInv(View(), Sync(OpLocMtx(m, tmo)));
      if !dspflg {
        return E_CTX;
      }
      er := LocBody(runtsk.value, m, tmo);
    }

    /** ploc_mtx. */
    method PlocMtx(m: nat) returns (er: Er)
      requires Task()
      modifies this, tcb, ready, wq, objs
      ensures OK() && (View(), er) == Step(old(View()), Sync(OpPlocMtx(m)))
    {
      hide ReadyOk, WaitOk, OrderOk, EvtOk, OwnOk, PriOk, ObjOk, Placed, Cached, S.LocMtx;
      StepInv(View(), Sync(OpPlocMtx(m)));
      er := LocBody(runtsk.value, m, Pol);
    }

    /** unl_mtx. */
    method UnlMtx(m: nat) returns (er: Er)
      requires Task()
      modifies this, tcb, ready, wq, objs
      ensures OK() && (View(), er) == Step(old(View()), Sync(OpUnlMtx(m)))
    {
      hide ReadyOk, WaitOk, OrderOk, EvtOk, OwnOk, PriOk, ObjOk, Placed, Cached, S.Unhold, S.MutexRelease;
      StepInv(View(), Sync(OpUnlMtx(m)));
      var r := runtsk.value;
      if m >= |inib| || !inib[m].MtxInib? {
        return E_ID;
      }
      if objs[m].loctsk != Some(r) {
        return E_OBJ;
      }
      UnholdGood(View(), r, m);
      var dspreq := UnholdMtx(r, m);
      var d := MutexRelease(m, {});
      if d {
        dspreq := true;
      }
      DispatchIf(dspreq);
      return E_OK;
    }

    /** The mutex leaves the mutex list of t, whose priority drops if its ceiling made it. */
    method UnholdMtx(t: Tid, m: nat) returns (dspreq: bool)
      requires Valid() && Links(View(), {}) && t < tcb.Length && IsMtx(View(), m)
      modifies this`primap, this`schedtsk, tcb, ready, wq
      ensures Valid() && View() == S.Unhold(old(View()), t, m)
      ensures dspreq == (dspflg && schedtsk != old(schedtsk))
    {
      hide ReadyOk, WaitOk, OrderOk, EvtOk, Placed, Cached, S.DropPriority;
      RunQueued(View(), t);
      StatPlaced(tcb[..], ready[..], t, tcb[t].(held := Remove(tcb[t].held, m)));
      tcb[t] := tcb[t].(held := Remove(tcb[t].held, m));
      dspreq := false;
      if inib[m].proto.Ceiling? {
        dspreq := MutexDropPriority(t, inib[m].proto.c);
      }
    }

    /** ini_mtx. */
    method IniMtx(m: nat) returns (er: Er)
      requires Task()
      modifies this, tcb, ready, wq, objs
      ensures OK() && (View(), er) == Step(old(View()), Sync(OpIniMtx(m)))
    {
      hide Inv, Core, Links, Step, Placed, Cached, S.Unhold, S.WakeAll;
      TaskCall(View(), Sync(OpIniMtx(m)));
      if m >= |inib| || !inib[m].MtxInib? {
        return E_ID;
      }
      Stripped(View(), m);
      var dspreq := InitWaitQueue(m);
      if objs[m].loctsk.Some? {
        var d := UnholdMtx(objs[m].loctsk.value, m);
        objs[m] := MtxCb(None);
        if d {
          dspreq := true;
        }
      }
      DispatchIf(dspreq);
      return E_OK;
    }

    // ---- semaphore.c ---------------------------------------------------------------------

    /** queue_delete_next and wait_complete. */
    method WakeFirst(q: nat) returns (dspreq: bool)
      requires Valid() && Links(View(), {}) && q < wq.Length && wq[q] != []
      modifies this`primap, this`schedtsk, this`evts, tcb, ready, wq, objs
      ensures Valid() && View() == S.WakeHead(old(View()), q)
      ensures dspreq == (dspflg && schedtsk != old(schedtsk))
    {
      hide ReadyOk, WaitOk, OrderOk, EvtOk, Placed, Cached, S.Wake;
      PopWake(View(), q, E_OK);
      var t := DeleteNext(q);
      dspreq := WaitComplete(t);
    }

    /** What sig_sem and isig_sem share. */
    method SigBody(o: nat) returns (er: Er, dspreq: bool)
      requires Valid() && Core(View())
      modifies this`primap, this`schedtsk, this`evts, tcb, ready, wq, objs
      ensures Valid() && (View(), er) == S.SigSem(old(View()), o)
      ensures dspreq ==> dspflg
      ensures dspflg && schedtsk != old(schedtsk) ==> dspreq
    {
      hide ReadyOk, WaitOk, OrderOk, EvtOk, OwnOk, PriOk, ObjOk, Placed, Cached, S.WakeHead;
      if o >= |inib| || !inib[o].SemInib? {
        return E_ID, false;
      }
      if wq[o] != [] {
        dspreq := WakeFirst(o);
        return E_OK, dspreq;
      }
      if objs[o].semcnt < inib[o].maxsem {
        objs[o] := SemCb(objs[o].semcnt + 1);
        return E_OK, false;
      }
      return E_QOVR, false;
    }

    /** sig_sem. */
    method SigSem(o: nat) returns (er: Er)
      requires Task()
      modifies this, tcb, ready, wq, objs
      ensures OK() && (View(), er) == Step(old(View()), Sync(OpSigSem(o)))
    {
      hide ReadyOk, WaitOk, OrderOk, EvtOk, OwnOk, PriOk, ObjOk, Placed, Cached, S.SigSem;
      StepInv(View(), Sync(OpSigSem(o)));
      var dspreq;
      er, dspreq := SigBody(o);
      DispatchIf(dspreq);
    }

    /** isig_sem. */
    method IsigSem(o: nat) returns (er: Er)
      requires OK() && intctx
      modifies this, tcb, ready, wq, objs
      ensures OK() && (View(), er) == Step(old(View()), Int(OpISigSem(o)))
    {
      hide ReadyOk, WaitOk, OrderOk, EvtOk, OwnOk, PriOk, ObjOk, Placed, Cached, S.SigSem;
      StepInv(View(), Int(OpISigSem(o)));
      var dspreq;
      er, dspreq := SigBody(o);
      RequestIf(dspreq);
    }

    /** The running task waits for object queue q. */
    method Block(r: Tid, q: nat, tmo: Tmo)
      requires Valid() && Core(View()) && r < tcb.Length && tcb[r].tstat.Runnable? && q < wq.Length && dspflg
      modifies this, tcb, ready, wq, objs
      ensures Valid() && View() == S.Settle(S.WobjMakeWait(old(View()), r, q, tmo == After))
      ensures (dspflg ==> runtsk == schedtsk) && reqflg == old(reqflg)
    {
      hide ReadyOk, WaitOk, OrderOk, EvtOk, OwnOk, PriOk, ObjOk, Placed, Cached, S.WobjMakeWait;
      RunQueued(View(), r);
      WobjMakeWait(r, q, tmo == After);
      DispatchIf(true);
    }

    /** wai_sem, pol_sem and twai_sem once the context is checked. */
    method WaiBody(r: Tid, o: nat, tmo: Tmo) returns (er: Er)
      requires Task() && runtsk == Some(r) && (dspflg || tmo == Pol)
      modifies this, tcb, ready, wq, objs
      ensures Valid() && (View(), er) == S.WaiSem(old(View()), r, o, tmo)
      ensures (dspflg ==> runtsk == schedtsk) && reqflg == old(reqflg)
    {
      hide ReadyOk, WaitOk, OrderOk, EvtOk, OwnOk, PriOk, ObjOk, Placed, Cached, S.WobjMakeWait;
      if o >= |inib| || !inib[o].SemInib? {
        return E_ID;
      }
      if objs[o].semcnt >= 1 {
        objs[o] := SemCb(objs[o].semcnt - 1);
        return E_OK;
      }
      if tmo == Pol {
        return E_TMOUT;
      }
      if tcb[r].waifbd {
        return E_RLWAI;
      }
      Block(r, o, tmo);
      return Blocked;
    }

    /** wai_sem and twai_sem. */
    method WaiSem(o: nat, tmo: Tmo) returns (er: Er)
      requires Task()
      modifies this, tcb, ready, wq, objs
      ensures OK() && (View(), er) == Step(old(View()), Sync(OpWaiSem(o, tmo)))
    {
      hide ReadyOk, WaitOk, OrderOk, EvtOk, OwnOk, PriOk, ObjOk, Placed, Cached, S.WaiSem;
      StepInv(View(), Sync(OpWaiSem(o, tmo)));
      if !dspflg {
        return E_CTX;
      }
      er := WaiBody(runtsk.value, o, tmo);
    }

    /** pol_sem. */
    method PolSem(o: nat) returns (er: Er)
      requires Task()
      modifies this, tcb, ready, wq, objs
      ensures OK() && (View(), er) == Step(old(View()), Sync(OpPolSem(o)))
    {
      hide ReadyOk, WaitOk, OrderOk, EvtOk, OwnOk, PriOk, ObjOk, Placed, Cached, S.WaiSem;
      StepInv(View(), Sync(OpPolSem(o)));
      er := WaiBody(runtsk.value, o, Pol);
    }

    /** ini_sem. */
    method IniSem(o: nat) returns (er: Er)
      requires Task()
      modifies this, tcb, ready, wq, objs
      ensures OK() && (View(), er) == Step(old(View()), Sync(OpIniSem(o)))
    {
      hide Inv, Core, Links, Step, Placed, Cached, S.WakeAll;
      TaskCall(View(), Sync(OpIniSem(o)));
      if o >= |inib| || !inib[o].SemInib? {
        return E_ID;
      }
      var dspreq := InitWaitQueue(o);
      objs[o] := SemCb(inib[o].isemcnt);
      DispatchIf(dspreq);
      return E_OK;
    }

    // ---- eventflag.c ---------------------------------------------------------------------

    /** check_flg_cond: the pattern is returned, and cleared when the flag asks for it. */
    method CheckFlgCond(o: nat, waiptn: bv32, orw: bool) returns (ok: bool, flgptn: bv32)
      requires Valid() && IsFlg(View(), o)
      modifies objs
      ensures Valid() && flgptn == old(objs[o].ptn) && ok == FlgCond(flgptn, waiptn, orw)
      ensures ok <==> Flags.Meets(flgptn, waiptn, orw)
      ensures View() == if ok then old(View()).(objs := old(objs[..])[o := FlgCb(if inib[o].clr then 0 else flgptn)])
                        else old(View())
    {
      hide Placed, Cached, FlgCond, Flags.Meets;
      flgptn := objs[o].ptn;
      Flags.CondMeets(flgptn, waiptn, orw);
      if FlgCond(flgptn, waiptn, orw) {
        if inib[o].clr {
          objs[o] := FlgCb(0);
        }
        return true, flgptn;
      }
      return false, flgptn;
    }

    /** One turn of the loop of set_flg, on the waiting task t. */
    method FlgTurn(o: nat, t: Tid) returns (hit: bool, dspreq: bool)
      requires Valid() && IsFlg(View(), o) && t < tcb.Length && tcb[t].tstat.Waiting? && Out(t)
      requires forall q :: 0 <= q < wq.Length ==> NoDup(wq[q])
      modifies this`primap, this`schedtsk, this`evts, tcb, ready, wq, objs
      ensures Valid() && hit == FlgCond(old(objs[o].ptn), old(tcb[t].waiptn), old(tcb[t].orw))
      ensures View() == if hit then S.Wake(FlgHit(old(View()), o, t), t, E_OK) else old(View())
      ensures dspreq == (dspflg && schedtsk != old(schedtsk))
    {
      hide FlgCond, Placed, Cached, S.Wake;
      var ptn;
      hit, ptn := CheckFlgCond(o, tcb[t].waiptn, tcb[t].orw);
      dspreq := false;
      if hit {
        StatPlaced(tcb[..], ready[..], t, tcb[t].(flgptn := ptn));
        tcb[t] := tcb[t].(flgptn := ptn);
        dspreq := WaitRelease(t, E_OK);
      }
    }

    /** The loop of set_flg and iset_flg. */
    method FlgLoop(o: nat) returns (dspreq: bool)
      requires Valid() && IsFlg(View(), o) && Walking(View(), o, wq[o])
      modifies this`primap, this`schedtsk, this`evts, tcb, ready, wq, objs
      ensures Valid() && View() == S.FlgWalk(old(View()), o, old(wq[o]))
      ensures dspreq ==> dspflg
      ensures dspflg && schedtsk != old(schedtsk) ==> dspreq
    {
      hide ReadyOk, WaitOk, OrderOk, EvtOk, OwnOk, PriOk, ObjOk, FlgCond, Placed, Cached, S.Wake, Walking, FlgHit;
      dspreq := false;
      ghost var s0 := View();
      var ts := wq[o];
      while ts != []
        invariant Valid() && IsFlg(View(), o)
        invariant Walking(View(), o, ts)
        invariant S.FlgWalk(View(), o, ts) == S.FlgWalk(s0, o, s0.wq[o])
        invariant dspreq ==> dspflg
        invariant dspflg && schedtsk != old(schedtsk) ==> dspreq
        decreases |ts|
      {
        WalkStep(View(), o, ts);
        var t := ts[0];
        ts := ts[1..];
        var hit, d := FlgTurn(o, t);
        if d {
          dspreq := true;
        }
        if hit && inib[o].clr {
          return;
        }
      }
    }

    /** What set_flg and iset_flg share. */
    method SetBody(o: nat, setptn: bv32) returns (er: Er, dspreq: bool)
      requires Valid() && Core(View())
      modifies this`primap, this`schedtsk, this`evts, tcb, ready, wq, objs
      ensures Valid() && (View(), er) == S.SetFlg(old(View()), o, setptn)
      ensures dspreq ==> dspflg
      ensures dspflg && schedtsk != old(schedtsk) ==> dspreq
    {
      hide ReadyOk, WaitOk, OrderOk, EvtOk, OwnOk, PriOk, ObjOk, Placed, Cached, Walking, FlgCond, S.FlgWalk, SetBits;
      if o >= |inib| || !inib[o].FlgInib? {
        return E_ID, false;
      }
      SetFlgStart(View(), o, setptn);
      objs[o] := FlgCb(SetBits(objs[o].ptn, setptn));
      dspreq := FlgLoop(o);
      return E_OK, dspreq;
    }

    /** set_flg. */
    method SetFlg(o: nat, setptn: bv32) returns (er: Er)
      requires Task()
      modifies this, tcb, ready, wq, objs
      ensures OK() && (View(), er) == Step(old(View()), Sync(OpSetFlg(o, setptn)))
    {
      hide ReadyOk, WaitOk, OrderOk, EvtOk, OwnOk, PriOk, ObjOk, Placed, Cached, S.SetFlg;
      StepInv(View(), Sync(OpSetFlg(o, setptn)));
      var dspreq;
      er, dspreq := SetBody(o, setptn);
      DispatchIf(dspreq);
    }

    /** iset_flg. */
    method IsetFlg(o: nat, setptn: bv32) returns (er: Er)
      requires OK() && intctx
      modifies this, tcb, ready, wq, objs
      ensures OK() && (View(), er) == Step(old(View()), Int(OpISetFlg(o, setptn)))
    {
      hide ReadyOk, WaitOk, OrderOk, EvtOk, OwnOk, PriOk, ObjOk, Placed, Cached, S.SetFlg;
      StepInv(View(), Int(OpISetFlg(o, setptn)));
      var dspreq;
      er, dspreq := SetBody(o, setptn);
      RequestIf(dspreq);
    }

    /** clr_flg. */
    method ClrFlg(o: nat, clrptn: bv32) returns (er: Er)
      requires Task()
      modifies this, tcb, ready, wq, objs
      ensures OK() && (View(), er) == Step(old(View()), Sync(OpClrFlg(o, clrptn)))
    {
      hide ReadyOk, WaitOk, OrderOk, EvtOk, OwnOk, PriOk, ObjOk, Placed, Cached, FlgCond, ClearBits;
      StepInv(View(), Sync(OpClrFlg(o, clrptn)));
      if o >= |inib| || !inib[o].FlgInib? {
        return E_ID;
      }
      objs[o] := FlgCb(ClearBits(objs[o].ptn, clrptn));
      return E_OK;
    }

    /** wai_flg, pol_flg and twai_flg once the context is checked. */
    method WaiFlgBody(r: Tid, o: nat, waiptn: bv32, orw: bool, tmo: Tmo) returns (er: Er)
      requires Task() && runtsk == Some(r) && (dspflg || tmo == Pol)
      modifies this, tcb, ready, wq, objs
      ensures Valid() && (View(), er) == S.WaiFlg(old(View()), r, o, waiptn, orw, tmo)
      ensures (dspflg ==> runtsk == schedtsk) && reqflg == old(reqflg)
    {
      hide ReadyOk, WaitOk, OrderOk, EvtOk, OwnOk, PriOk, ObjOk, Placed, Cached, FlgCond, S.WobjMakeWait;
      if o >= |inib| || !inib[o].FlgInib? {
        return E_ID;
      }
      if waiptn == 0 {
        return E_PAR;
      }
      if !inib[o].wmul && wq[o] != [] {
        return E_ILUSE;
      }
      var ok, ptn := CheckFlgCond(o, waiptn, orw);
      if ok {
        StatPlaced(tcb[..], ready[..], r, tcb[r].(flgptn := ptn));
        tcb[r] := tcb[r].(flgptn := ptn);
        return E_OK;
      }
      if tmo == Pol {
        return E_TMOUT;
      }
      if tcb[r].waifbd {
        return E_RLWAI;
      }
      BlockOnFlg(r, o, waiptn, orw, tmo);
      return Blocked;
    }

    /** The running task waits for the pattern. */
    method BlockOnFlg(r: Tid, o: nat, waiptn: bv32, orw: bool, tmo: Tmo)
      requires Task() && runtsk == Some(r) && dspflg && o < |inib|
      modifies this, tcb, ready, wq, objs
      ensures Valid() && (dspflg ==> runtsk == schedtsk) && reqflg == old(reqflg)
      ensures var s1 := old(View()).(tcb := old(tcb[..])[r := old(tcb[r]).(waiptn := waiptn, orw := orw)]);
        View() == S.Settle(S.WobjMakeWait(s1, r, o, tmo == After))
    {
      hide ReadyOk, WaitOk, OrderOk, EvtOk, OwnOk, PriOk, ObjOk, Placed, Cached, S.WobjMakeWait;
      PatternCore(View(), r, waiptn, orw);
      StatPlaced(tcb[..], ready[..], r, tcb[r].(waiptn := waiptn, orw := orw));
      tcb[r] := tcb[r].(waiptn := waiptn, orw := orw);
      Block(r, o, tmo);
    }

    /** wai_flg and twai_flg. */
    method WaiFlg(o: nat, waiptn: bv32, orw: bool, tmo: Tmo) returns (er: Er)
      requires Task()
      modifies this, tcb, ready, wq, objs
      ensures OK() && (View(), er) == Step(old(View()), Sync(OpWaiFlg(o, waiptn, orw, tmo)))
    {
      hide ReadyOk, WaitOk, OrderOk, EvtOk, OwnOk, PriOk, ObjOk, Placed, Cached, S.WaiFlg;
      StepInv(View(), Sync(OpWaiFlg(o, waiptn, orw, tmo)));
      if !dspflg {
        return E_CTX;
      }
      er := WaiFlgBody(runtsk.value, o, waiptn, orw, tmo);
    }

    /** pol_flg. */
    method PolFlg(o: nat, waiptn: bv32, orw: bool) returns (er: Er)
      requires Task()
      modifies this, tcb, ready, wq, objs
      ensures OK() && (View(), er) == Step(old(View()), Sync(OpPolFlg(o, waiptn, orw)))
    {
      hide ReadyOk, WaitOk, OrderOk, EvtOk, OwnOk, PriOk, ObjOk, Placed, Cached, S.WaiFlg;
      StepInv(View(), Sync(OpPolFlg(o, waiptn, orw)));
      er := WaiFlgBody(runtsk.value, o, waiptn, orw, Pol);
    }

    /** ini_flg. */
    method IniFlg(o: nat) returns (er: Er)
      requires Task()
      modifies this, tcb, ready, wq, objs
      ensures OK() && (View(), er) == Step(old(View()), Sync(OpIniFlg(o)))
    {
      hide Inv, Core, Links, Step, Placed, Cached, S.WakeAll, FlgCond;
      TaskCall(View(), Sync(OpIniFlg(o)));
      if o >= |inib| || !inib[o].FlgInib? {
        return E_ID;
      }
      var dspreq := InitWaitQueue(o);
      objs[o] := FlgCb(inib[o].iflgptn);
      DispatchIf(dspreq);
      return E_OK;
    }

    // ---- dataqueue.c, pridataq.c ---------------------------------------------------------

    /** The first task of queue q is given it, and its wait is over. */
    method Give(q: nat, it: Item) returns (dspreq: bool)
      requires Valid() && Core(View()) && q < wq.Length && wq[q] != [] && wq[q][0] < tcb.Length
      modifies this`primap, this`schedtsk, this`evts, tcb, ready, wq
      ensures Valid() && View() == S.WakeHead(SetItem(old(View()), old(wq[q][0]), it), q)
      ensures dspreq == (dspflg && schedtsk != old(schedtsk))
    {
      hide ReadyOk, WaitOk, OrderOk, EvtOk, OwnOk, PriOk, ObjOk, Placed, Cached, S.Wake;
      ItemCore(View(), wq[q][0], it);
      PopWake(SetItem(View(), wq[q][0], it), q, E_OK);
      var t := DeleteNext(q);
      StatPlaced(tcb[..], ready[..], t, tcb[t].(item := it));
      tcb[t] := tcb[t].(item := it);
      dspreq := WaitComplete(t);
    }

    /** The first task waiting to receive is given the data. */
    method HandOver(o: nat, it: Item) returns (dspreq: bool)
      requires Valid() && Core(View()) && IsDtq(View(), o) && wq[RcvQ(View(), o)] != []
      modifies this`primap, this`schedtsk, this`evts, tcb, ready, wq
      ensures Valid() && View() == S.HandOver(old(View()), o, it)
      ensures dspreq == (dspflg && schedtsk != old(schedtsk))
    {
      hide ReadyOk, WaitOk, OrderOk, EvtOk, OwnOk, PriOk, ObjOk, Placed, Cached, S.WakeHead;
      HeadWaits(View(), |inib| + o);
      dspreq := Give(|inib| + o, it);
    }

    /** send_data and send_pridata. */
    method SendData(o: nat, it: Item) returns (sent: bool, dspreq: bool)
      requires Valid() && Core(View()) && IsDtq(View(), o)
      modifies this`primap, this`schedtsk, this`evts, tcb, ready, wq, objs
      ensures Valid() && sent == S.SendData(old(View()), o, it).Some?
      ensures !sent ==> !dspreq
      ensures View() == if sent then S.SendData(old(View()), o, it).value else old(View())
      ensures dspreq ==> dspflg
      ensures dspflg && schedtsk != old(schedtsk) ==> dspreq
    {
      hide ReadyOk, WaitOk, OrderOk, EvtOk, OwnOk, PriOk, ObjOk, Placed, Cached, S.HandOver, S.AddItem;
      if wq[|inib| + o] != [] {
        dspreq := HandOver(o, it);
        return true, dspreq;
      }
      if |objs[o].items| < inib[o].dtqcnt {
        objs[o] := DtqCb(AddItem(inib[o].prio, objs[o].items, it));
        return true, false;
      }
      return false, false;
    }

    /** force_send_data. */
    method ForceSendData(o: nat, it: Item) returns (dspreq: bool)
      requires Valid() && Core(View()) && IsDtq(View(), o)
      modifies this`primap, this`schedtsk, this`evts, tcb, ready, wq, objs
      ensures Valid() && View() == S.ForceSendData(old(View()), o, it)
      ensures dspreq ==> dspflg
      ensures dspflg && schedtsk != old(schedtsk) ==> dspreq
    {
      hide ReadyOk, WaitOk, OrderOk, EvtOk, OwnOk, PriOk, ObjOk, Placed, Cached, S.HandOver, S.ForceItem;
      if wq[|inib| + o] != [] {
        dspreq := HandOver(o, it);
      } else {
        objs[o] := DtqCb(ForceItem(objs[o].items, inib[o].dtqcnt, it));
        dspreq := false;
      }
    }

    /** receive_data and receive_pridata. */
    method ReceiveData(o: nat) returns (got: bool, it: Item, dspreq: bool)
      requires Valid() && Core(View()) && IsDtq(View(), o)
      modifies this`primap, this`schedtsk, this`evts, tcb, ready, wq, objs
      ensures Valid() && got == S.ReceiveData(old(View()), o).Some?
      ensures !got ==> !dspreq
      ensures if got then S.ReceiveData(old(View()), o) == Some((View(), it)) else View() == old(View())
      ensures dspreq ==> dspflg
      ensures dspflg && schedtsk != old(schedtsk) ==> dspreq
    {
      hide ReadyOk, WaitOk, OrderOk, EvtOk, OwnOk, PriOk, ObjOk, Placed, Cached, S.WakeHead, S.AddItem;
      it := Item(0, 0);
      if wq[o] != [] {
        HeadWaits(View(), o);
      }
      if objs[o].items != [] {
        it := objs[o].items[0];
        var items := objs[o].items[1..];
        if wq[o] != [] {
          var sent := tcb[wq[o][0]].item;
          objs[o] := DtqCb(AddItem(inib[o].prio, items, sent));
          ItemsLinks(old(View()), View(), o);
          dspreq := WakeFirst(o);
        } else {
          objs[o] := DtqCb(items);
          dspreq := false;
        }
        return true, it, dspreq;
      }
      if wq[o] != [] {
        it := tcb[wq[o][0]].item;
        dspreq := WakeFirst(o);
        return true, it, dspreq;
      }
      return false, it, false;
    }

    /** snd_dtq, psnd_dtq and tsnd_dtq once the context is checked. */
    method SndBody(r: Tid, o: nat, it: Item, tmo: Tmo) returns (er: Er)
      requires Task() && runtsk == Some(r) && (dspflg || tmo == Pol)
      modifies this, tcb, ready, wq, objs
      ensures Valid() && (View(), er) == S.SndDtq(old(View()), r, o, it, tmo)
      ensures (dspflg ==> runtsk == schedtsk) && reqflg == old(reqflg)
    {
      hide ReadyOk, WaitOk, OrderOk, EvtOk, OwnOk, PriOk, ObjOk, Placed, Cached, S.SendData, S.WobjMakeWait;
      if o >= |inib| || !inib[o].DtqInib? {
        return E_ID;
      }
      if BadDataPri(inib[o], it) {
        return E_PAR;
      }
      var sent, dspreq := SendData(o, it);
      if sent {
        DispatchIf(dspreq);
        return E_OK;
      }
      if tmo == Pol {
        return E_TMOUT;
      }
      if tcb[r].waifbd {
        return E_RLWAI;
      }
      ItemCore(View(), r, it);
      StatPlaced(tcb[..], ready[..], r, tcb[r].(item := it));
      tcb[r] := tcb[r].(item := it);
      Block(r, o, tmo);
      return Blocked;
    }

    /** snd_dtq and tsnd_dtq, snd_pdq and tsnd_pdq. */
    method SndDtq(o: nat, it: Item, tmo: Tmo) returns (er: Er)
      requires Task()
      modifies this, tcb, ready, wq, objs
      ensures OK() && (View(), er) == Step(old(View()), Data(OpSndDtq(o, it, tmo)))
    {
      hide ReadyOk, WaitOk, OrderOk, EvtOk, OwnOk, PriOk, ObjOk, Placed, Cached, S.SndDtq;
      StepInv(View(), Data(OpSndDtq(o, it, tmo)));
      if !dspflg {
        return E_CTX;
      }
      er := SndBody(runtsk.value, o, it, tmo);
    }

    /** psnd_dtq and psnd_pdq. */
    method PsndDtq(o: nat, it: Item) returns (er: Er)
      requires Task()
      modifies this, tcb, ready, wq, objs
      ensures OK() && (View(), er) == Step(old(View()), Data(OpPsndDtq(o, it)))
    {
      hide ReadyOk, WaitOk, OrderOk, EvtOk, OwnOk, PriOk, ObjOk, Placed, Cached, S.SndDtq;
      StepInv(View(), Data(OpPsndDtq(o, it)));
      er := SndBody(runtsk.value, o, it, Pol);
    }

    /** ipsnd_dtq and ipsnd_pdq. */
    method IpsndDtq(o: nat, it: Item) returns (er: Er)
      requires OK() && intctx
      modifies this, tcb, ready, wq, objs
      ensures OK() && (View(), er) == Step(old(View()), Int(OpIpsndDtq(o, it)))
    {
      hide ReadyOk, WaitOk, OrderOk, EvtOk, OwnOk, PriOk, ObjOk, Placed, Cached, S.SendData;
      StepInv(View(), Int(OpIpsndDtq(o, it)));
      if o >= |inib| || !inib[o].DtqInib? {
        return E_ID;
      }
      if BadDataPri(inib[o], it) {
        return E_PAR;
      }
      var sent, dspreq := SendData(o, it);
      if sent {
        RequestIf(dspreq);
        return E_OK;
      }
      return E_TMOUT;
    }

    /** What fsnd_dtq and ifsnd_dtq share: the result is E_OK even after a capacity error. */
    method FsndBody(o: nat, it: Item) returns (er: Er, dspreq: bool)
      requires Valid() && Core(View())
      modifies this`primap, this`schedtsk, this`evts, tcb, ready, wq, objs
      ensures Valid() && (View(), er) == S.FsndDtq(old(View()), o, it)
      ensures dspreq ==> dspflg
      ensures dspflg && schedtsk != old(schedtsk) ==> dspreq
    {
      hide ReadyOk, WaitOk, OrderOk, EvtOk, OwnOk, PriOk, ObjOk, Placed, Cached, S.ForceSendData;
      dspreq := false;
      if o >= |inib| || !inib[o].DtqInib? || inib[o].prio {
        return E_ID, false;
      }
      if !(inib[o].dtqcnt > 0) {
        er := E_ILUSE;
      } else {
        dspreq := ForceSendData(o, it);
      }
      er := E_OK;
    }

    /** fsnd_dtq. */
    method FsndDtq(o: nat, it: Item) returns (er: Er)
      requires Task()
      modifies this, tcb, ready, wq, objs
      ensures OK() && (View(), er) == Step(old(View()), Data(OpFsndDtq(o, it)))
    {
      hide ReadyOk, WaitOk, OrderOk, EvtOk, OwnOk, PriOk, ObjOk, Placed, Cached, S.FsndDtq;
      StepInv(View(), Data(OpFsndDtq(o, it)));
      var dspreq;
      er, dspreq := FsndBody(o, it);
      DispatchIf(dspreq);
    }

    /** ifsnd_dtq. */
    method IfsndDtq(o: nat, it: Item) returns (er: Er)
      requires OK() && intctx
      modifies this, tcb, ready, wq, objs
      ensures OK() && (View(), er) == Step(old(View()), Int(OpIfsndDtq(o, it)))
    {
      hide ReadyOk, WaitOk, OrderOk, EvtOk, OwnOk, PriOk, ObjOk, Placed, Cached, S.FsndDtq;
      StepInv(View(), Int(OpIfsndDtq(o, it)));
      var dspreq;
      er, dspreq := FsndBody(o, it);
      RequestIf(dspreq);
    }

    /** rcv_dtq, prcv_dtq and trcv_dtq once the context is checked. */
    method RcvBody(r: Tid, o: nat, tmo: Tmo) returns (er: Er)
      requires Task() && runtsk == Some(r) && (dspflg || tmo == Pol)
      modifies this, tcb, ready, wq, objs
      ensures Valid() && (View(), er) == S.RcvDtq(old(View()), r, o, tmo)
      ensures (dspflg ==> runtsk == schedtsk) && reqflg == old(reqflg)
    {
      hide ReadyOk, WaitOk, OrderOk, EvtOk, OwnOk, PriOk, ObjOk, Placed, Cached, S.ReceiveData, S.WobjMakeWait;
      if o >= |inib| || !inib[o].DtqInib? {
        return E_ID;
      }
      var got, it, dspreq := ReceiveData(o);
      if got {
        StatPlaced(tcb[..], ready[..], r, tcb[r].(item := it));
        tcb[r] := tcb[r].(item := it);
        DispatchIf(dspreq);
        return E_OK;
      }
      if tmo == Pol {
        return E_TMOUT;
      }
      if tcb[r].waifbd {
        return E_RLWAI;
      }
      Block(r, |inib| + o, tmo);
      return Blocked;
    }

    /** rcv_dtq and trcv_dtq, rcv_pdq and trcv_pdq. */
    method RcvDtq(o: nat, tmo: Tmo) returns (er: Er)
      requires Task()
      modifies this, tcb, ready, wq, objs
      ensures OK() && (View(), er) == Step(old(View()), Data(OpRcvDtq(o, tmo)))
    {
      hide ReadyOk, WaitOk, OrderOk, EvtOk, OwnOk, PriOk, ObjOk, Placed, Cached, S.RcvDtq;
      StepInv(View(), Data(OpRcvDtq(o, tmo)));
      if !dspflg {
        return E_CTX;
      }
      er := RcvBody(runtsk.value, o, tmo);
    }

    /** prcv_dtq and prcv_pdq. */
    method PrcvDtq(o: nat) returns (er: Er)
      requires Task()
      modifies this, tcb, ready, wq, objs
      ensures OK() && (View(), er) == Step(old(View()), Data(OpPrcvDtq(o)))
    {
      hide ReadyOk, WaitOk, OrderOk, EvtOk, OwnOk, PriOk, ObjOk, Placed, Cached, S.RcvDtq;
      StepInv(View(), Data(OpPrcvDtq(o)));
      er := RcvBody(runtsk.value, o, Pol);
    }

    /** Both wait queues of a data queue are emptied. */
    method InitBoth(o: nat) returns (dspreq: bool)
      requires Valid() && Core(View()) && IsDtq(View(), o)
      modifies this`primap, this`schedtsk, this`evts, tcb, ready, wq
      ensures Valid()
      ensures var s1 := S.WakeAll(old(View()), old(wq[o])); View() == S.WakeAll(s1, s1.wq[|inib| + o])
      ensures dspreq ==> dspflg
      ensures dspflg && schedtsk != old(schedtsk) ==> dspreq
    {
      hide ReadyOk, WaitOk, OrderOk, EvtOk, OwnOk, PriOk, ObjOk, Placed, Cached, S.WakeAll;
      WakeAllCore(View(), o);
      dspreq := InitWaitQueue(o);
      var d := InitWaitQueue(|inib| + o);
      if d {
        dspreq := true;
      }
    }

    /** ini_dtq and ini_pdq. */
    method IniDtq(o: nat) returns (er: Er)
      requires Task()
      modifies this, tcb, ready, wq, objs
      ensures OK() && (View(), er) == Step(old(View()), Data(OpIniDtq(o)))
    {
      hide Inv, Core, Links, Step, Placed, Cached, S.WakeAll;
      TaskCall(View(), Data(OpIniDtq(o)));
      if o >= |inib| || !inib[o].DtqInib? {
        return E_ID;
      }
      var dspreq := InitBoth(o);
      objs[o] := DtqCb([]);
      DispatchIf(dspreq);
      return E_OK;
    }

    // ---- mempfix.c -----------------------------------------------------------------------

    /** get_mpf, pget_mpf and tget_mpf once the context is checked. */
    method GetBody(r: Tid, o: nat, tmo: Tmo) returns (er: Er)
      requires Task() && runtsk == Some(r) && (dspflg || tmo == Pol)
      modifies this, tcb, ready, wq, objs
      ensures Valid() && (View(), er) == S.GetMpf(old(View()), r, o, tmo)
      ensures (dspflg ==> runtsk == schedtsk) && reqflg == old(reqflg)
    {
      hide ReadyOk, WaitOk, OrderOk, EvtOk, OwnOk, PriOk, ObjOk, Placed, Cached, GetBlock, NextBlock, S.WobjMakeWait;
      if o >= |inib| || !inib[o].MpfInib? {
        return E_ID;
      }
      if objs[o].pool.fblkcnt > 0 {
        var blk := NextBlock(objs[o].pool);
        objs[o] := MpfCb(GetBlock(objs[o].pool));
        StatPlaced(tcb[..], ready[..], r, tcb[r].(item := Item(blk, 0)));
        tcb[r] := tcb[r].(item := Item(blk, 0));
        return E_OK;
      }
      if tmo == Pol {
        return E_TMOUT;
      }
      if tcb[r].waifbd {
        return E_RLWAI;
      }
      Block(r, o, tmo);
      return Blocked;
    }

    /** get_mpf and tget_mpf. */
    method GetMpf(o: nat, tmo: Tmo) returns (er: Er)
      requires Task()
      modifies this, tcb, ready, wq, objs
      ensures OK() && (View(), er) == Step(old(View()), Data(OpGetMpf(o, tmo)))
    {
      hide ReadyOk, WaitOk, OrderOk, EvtOk, OwnOk, PriOk, ObjOk, Placed, Cached, S.GetMpf;
      StepInv(View(), Data(OpGetMpf(o, tmo)));
      if !dspflg {
        return E_CTX;
      }
      er := GetBody(runtsk.value, o, tmo);
    }

    /** pget_mpf. */
    method PgetMpf(o: nat) returns (er: Er)
      requires Task()
      modifies this, tcb, ready, wq, objs
      ensures OK() && (View(), er) == Step(old(View()), Data(OpPgetMpf(o)))
    {
      hide ReadyOk, WaitOk, OrderOk, EvtOk, OwnOk, PriOk, ObjOk, Placed, Cached, S.GetMpf;
      StepInv(View(), Data(OpPgetMpf(o)));
      er := GetBody(runtsk.value, o, Pol);
    }

    /** rel_mpf of block number b. */
    method RelMpf(o: nat, b: nat) returns (er: Er)
      requires Task()
      modifies this, tcb, ready, wq, objs
      ensures OK() && (View(), er) == Step(old(View()), Data(OpRelMpf(o, b)))
    {
      hide Inv, Core, Links, Step, Placed, Cached, S.WakeHead, RelBlock;
      TaskCall(View(), Data(OpRelMpf(o, b)));
      if o >= |inib| || !inib[o].MpfInib? {
        return E_ID;
      }
      if !(b < objs[o].pool.unused && b in objs[o].pool.alloc) {
        return E_PAR;
      }
      if wq[o] != [] {
        HeadWaits(View(), o);
        var dspreq := Give(o, Item(b, 0));
        DispatchIf(dspreq);
        return E_OK;
      }
      objs[o] := MpfCb(RelBlock(objs[o].pool, b));
      return E_OK;
    }

    /** ini_mpf. */
    method IniMpf(o: nat) returns (er: Er)
      requires Task()
      modifies this, tcb, ready, wq, objs
      ensures OK() && (View(), er) == Step(old(View()), Data(OpIniMpf(o)))
    {
      hide Inv, Core, Links, Step, Placed, Cached, S.WakeAll;
      TaskCall(View(), Data(OpIniMpf(o)));
      if o >= |inib| || !inib[o].MpfInib? {
        return E_ID;
      }
      var dspreq := InitWaitQueue(o);
      objs[o] := MpfCb(NewPool(inib[o].blkcnt));
      DispatchIf(dspreq);
      return E_OK;
    }

    // ---- any call ------------------------------------------------------------------------

    method CallManage(op: ManageOp) returns (er: Er)
      requires Task()
      modifies this, tcb, ready, wq, objs
      ensures Valid() && (View(), er) == Step(old(View()), Manage(op))
      ensures Admits(old(View()), Manage(op)) ==> OK()
    {
      hide ReadyOk, WaitOk, OrderOk, EvtOk, OwnOk, PriOk, ObjOk, Placed, Cached, Step;
      match op
      case OpActTsk(t) => er := ActTsk(t);
      case OpExtTsk => er := ExtTsk();
      case OpTerTsk(t) => er := TerTsk(t);
      case OpChgPri(t, p) => er := ChgPri(t, p);
      case OpAcreTsk(p, act) => er := AcreTsk(p, act);
      case OpDelTsk(t) => er := DelTsk(t);
      case OpSlpTsk(tmo) => er := SlpTsk(tmo);
      case OpDlyTsk => er := DlyTsk();
      case OpWupTsk(t) => er := WupTsk(t);
      case OpRelWai(t) => er := RelWai(t);
      case OpSusTsk(t) => er := SusTsk(t);
      case OpRsmTsk(t) => er := RsmTsk(t);
      case OpDisWai(t, texmask) => er := DisWai(t, texmask);
      case OpEnaWai(t) => er := EnaWai(t);
      case OpDisDsp => er := DisDsp();
      case OpEnaDsp => er := EnaDsp();
      case OpChgIpm(enaall) => er := ChgIpm(enaall);
      case OpRotRdq(p) => er := RotRdq(p);
    }

    method CallSync(op: SyncOp) returns (er: Er)
      requires Task()
      modifies this, tcb, ready, wq, objs
      ensures OK() && (View(), er) == Step(old(View()), Sync(op))
    {
      hide ReadyOk, WaitOk, OrderOk, EvtOk, OwnOk, PriOk, ObjOk, Placed, Cached, Step;
      match op
      case OpLocMtx(o, tmo) => er := LocMtx(o, tmo);
      case OpPlocMtx(o) => er := PlocMtx(o);
      case OpUnlMtx(o) => er := UnlMtx(o);
      case OpIniMtx(o) => er := IniMtx(o);
      case OpSigSem(o) => er := SigSem(o);
      case OpWaiSem(o, tmo) => er := WaiSem(o, tmo);
      case OpPolSem(o) => er := PolSem(o);
      case OpIniSem(o) => er := IniSem(o);
      case OpSetFlg(o, ptn) => er := SetFlg(o, ptn);
      case OpClrFlg(o, ptn) => er := ClrFlg(o, ptn);
      case OpWaiFlg(o, ptn, orw, tmo) => er := WaiFlg(o, ptn, orw, tmo);
      case OpPolFlg(o, ptn, orw) => er := PolFlg(o, ptn, orw);
      case OpIniFlg(o) => er := IniFlg(o);
    }

    method CallData(op: DataOp) returns (er: Er)
      requires Task()
      modifies this, tcb, ready, wq, objs
      ensures OK() && (View(), er) == Step(old(View()), Data(op))
    {
      hide ReadyOk, WaitOk, OrderOk, EvtOk, OwnOk, PriOk, ObjOk, Placed, Cached, Step;
      match op
      case OpSndDtq(o, it, tmo) => er := SndDtq(o, it, tmo);
      case OpPsndDtq(o, it) => er := PsndDtq(o, it);
      case OpFsndDtq(o, it) => er := FsndDtq(o, it);
      case OpRcvDtq(o, tmo) => er := RcvDtq(o, tmo);
      case OpPrcvDtq(o) => er := PrcvDtq(o);
      case OpIniDtq(o) => er := IniDtq(o);
      case OpGetMpf(o, tmo) => er := GetMpf(o, tmo);
      case OpPgetMpf(o) => er := PgetMpf(o);
      case OpRelMpf(o, b) => er := RelMpf(o, b);
      case OpIniMpf(o) => er := IniMpf(o);
    }

    method CallInt(op: IntOp) returns (er: Er)
      requires OK() && intctx
      modifies this, tcb, ready, wq, objs
      ensures OK() && (View(), er) == Step(old(View()), Int(op))
    {
      hide ReadyOk, WaitOk, OrderOk, EvtOk, OwnOk, PriOk, ObjOk, Placed, Cached, Step;
      match op
      case OpIntExit => er := ExitInt();
      case OpIActTsk(t) => er := IactTsk(t);
      case OpIWupTsk(t) => er := IwupTsk(t);
      case OpIRelWai(t) => er := IrelWai(t);
      case OpIRotRdq(p) => er := IrotRdq(p);
      case OpISigSem(o) => er := IsigSem(o);
      case OpISetFlg(o, ptn) => er := IsetFlg(o, ptn);
      case OpIpsndDtq(o, it) => er := IpsndDtq(o, it);
      case OpIfsndDtq(o, it) => er := IfsndDtq(o, it);
      case OpTimeout(t) => er := WaitTmout(t);
    }

    /** Any call, in any context: the fast form computes the step of the simple one. */
    method Call(op: Op) returns (er: Er)
      requires OK()
      modifies this, tcb, ready, wq, objs
      ensures Valid() && (View(), er) == Step(old(View()), op)
      ensures Admits(old(View()), op) ==> OK()
    {
      hide ReadyOk, WaitOk, OrderOk, EvtOk, OwnOk, PriOk, ObjOk, Placed, Cached, IntStep, ManageStep, SyncStep, DataStep;
      match op
      case IntEnter =>
        EnterInt();
        er := E_OK;
      case Int(i) =>
        if !intctx {
          return E_CTX;
        }
        er := CallInt(i);
      case Manage(m) =>
        if intctx || runtsk.None? {
          return E_CTX;
        }
        er := CallManage(m);
      case Sync(y) =>
        if intctx || runtsk.None? {
          return E_CTX;
        }
        er := CallSync(y);
      case Data(d) =>
        if intctx || runtsk.None? {
          return E_CTX;
        }
        er := CallData(d);
    }

    /** initialize_task and the initialization of the objects, then the tasks with
        TA_ACT in the order of the task order table. */
    constructor (cfg: seq<TaskCfg>, objects: seq<Inib>, acts: seq<Tid>)
      requires CfgOk(cfg, objects, acts)
      ensures OK() && View() == Boot(cfg, objects, acts)
      ensures fresh(tcb) && fresh(ready) && fresh(wq) && fresh(objs)
    {
      inib := objects;
      tcb := new Tcb[|cfg|](i requires 0 <= i < |cfg| => InitTcb(cfg[i]));
      ready := new seq<Tid>[16](_ => []);
      wq := new seq<Tid>[2 * |objects|](_ => []);
      objs := new Cb[|objects|](i requires 0 <= i < |objects| => InitCb(objects[i]));
      primap := 0;
      schedtsk := None;
      runtsk := None;
      intctx, ipmflg, disdsp, dspflg, reqflg := false, true, false, true, false;
      evts := {};
      freeTcb := FreeFrom(cfg, 0);
      new;
      assert View() == Blank(cfg, objects);
      EmptyStart(tcb[..], ready[..]);
      StartTasks(cfg, acts);
    }

    /** The tasks with TA_ACT are started in the order of the task order table, and the
        first dispatch follows. */
    method StartTasks(cfg: seq<TaskCfg>, acts: seq<Tid>)
      requires Valid() && CfgOk(cfg, inib, acts) && View() == Blank(cfg, inib)
      modifies this, tcb, ready, wq, objs
      ensures OK() && View() == Boot(cfg, inib, acts)
    {
      hide Inv, Core, CfgOk, S.MakeActive, Blank, Placed, Cached;
      BootStart(cfg, inib, acts);
      BootInv(cfg, inib, acts);
      ghost var s0 := Blank(cfg, inib);
      BlankFlags(cfg, inib);
      var ts := acts;
      while ts != []
        invariant Valid() && dspflg && !intctx
        invariant Core(View()) && Dormants(View(), ts)
        invariant StartAll(View(), ts) == StartAll(s0, acts)
        decreases |ts|
      {
        StartStep(View(), ts);
        var _ := MakeActive(ts[0]);
        ts := ts[1..];
      }
      CachedTop(ready[..], primap, schedtsk);
      runtsk := schedtsk;
    }
  }

  /** What a service call by a running task starts from, and the function it computes. */
  lemma TaskCall(s: State, op: Op)
    requires Inv(s) && Admits(s, op) && !s.intctx && s.run.Some? && (MayBlock(op) ==> s.dspflg)
    ensures Core(s) && Links(s, {}) && Inv(Step(s, op).0)
    ensures op.Manage? ==> Step(s, op) == ManageStep(s, s.run.value, op.m)
    ensures op.Sync? ==> Step(s, op) == SyncStep(s, s.run.value, op.y)
    ensures op.Data? ==> Step(s, op) == DataStep(s, s.run.value, op.d)
    ensures s.run.value < |s.tcb| && s.tcb[s.run.value].tstat.Runnable?
    ensures s.dspflg ==> s.run == Sched(s)
  {
    hide ReadyOk, WaitOk, OrderOk, EvtOk, OwnOk, PriOk, ObjOk, ManageStep, SyncStep, DataStep;
    StepInv(s, op);
  }

  /** The same for a call by an interrupt handler. */
  lemma HandlerCall(s: State, op: IntOp)
    requires Inv(s) && s.intctx
    ensures Core(s) && Links(s, {}) && Inv(Step(s, Int(op)).0)
    ensures Step(s, Int(op)) == IntStep(s, op)
  {
    hide ReadyOk, WaitOk, OrderOk, EvtOk, OwnOk, PriOk, ObjOk, IntStep;
    StepInv(s, Int(op));
  }

  lemma AcreAdmitted(s: State, ipri: Pri, act: bool)
    requires Inv(s) && !s.intctx && s.run.Some?
    ensures Step(s, Manage(OpAcreTsk(ipri, act))) == AcreTsk(s, ipri, act)
    ensures Admits(s, Manage(OpAcreTsk(ipri, act))) ==> Inv(AcreTsk(s, ipri, act).0)
  {
    hide ReadyOk, WaitOk, OrderOk, EvtOk, OwnOk, PriOk, ObjOk, AcreTsk;
    if Admits(s, Manage(OpAcreTsk(ipri, act))) {
      AcreTskInv(s, s.run.value, ipri, act);
    }
  }

  lemma SomeBit(primap: bv16, p: Pri)
    requires Bitmap.Has(primap, p)
    ensures primap != 0
  {
    Bitmap.NoBits(p);
  }

  lemma {:induction false} RemoveIn(q: seq<Tid>, t: Tid)
    ensures forall u :: u in Remove(q, t) ==> u in q
  {
    if q != [] && q[0] != t {
      RemoveIn(q[1..], t);
    }
  }

  /** Taking a task out of its queue first makes no difference to ending its wait. */
  lemma LeftWake(s: State, t: Tid, er: Er)
    requires Shape(s) && t < |s.tcb| && s.tcb[t].tstat.Waiting?
    requires forall q :: 0 <= q < |s.wq| ==> NoDup(s.wq[q])
    ensures Wake(s.(wq := S.LeaveWaiting(s, t).wq), t, er) == Wake(s, t, er)
  {
    hide LeaveWaiting;
    LeftLeave(s, t);
  }

  lemma LeftLeave(s: State, t: Tid)
    requires Shape(s) && t < |s.tcb| && s.tcb[t].tstat.Waiting?
    requires forall q :: 0 <= q < |s.wq| ==> NoDup(s.wq[q])
    ensures LeaveWaiting(s.(wq := S.LeaveWaiting(s, t).wq), t) == LeaveWaiting(s, t)
  {
    var on := s.tcb[t].tstat.on;
    if on.Wobj? && on.q < |s.wq| {
      var q1 := Remove(s.wq[on.q], t);
      RemoveSpec(s.wq[on.q], t);
      RemoveAbsent(q1, t);
      UpdateTwice(s.wq, on.q, q1, q1);
    }
  }

  /** The head of a wait queue: out of the ready queues, and its wait can be ended. */
  lemma PopWake(s: State, q: nat, er: Er)
    requires Links(s, {}) && q < |s.wq| && s.wq[q] != []
    ensures var t := s.wq[q][0]; var s1 := s.(wq := s.wq[q := s.wq[q][1..]]);
      && t < |s.tcb| && WaitsOn(s.tcb[t], q) && Idle(s.ready, t) && t !in s.wq[q][1..]
      && Wake(s1, t, er) == Wake(s, t, er)
      && Links(Wake(s, t, er), {})
      && Wake(s, t, er).wq[q] == s.wq[q][1..]
  {
    var t := s.wq[q][0];
    assert t in s.wq[q];
    assert Remove(s.wq[q], t) == s.wq[q][1..];
    RemoveSpec(s.wq[q], t);
    LeftWake(s, t, er);
    WakeLinks(s, t, er, {});
  }

  lemma StatPlaced(tcb: seq<Tcb>, ready: seq<seq<Tid>>, t: Tid, v: Tcb)
    requires Placed(tcb, ready) && t < |tcb| && v.pri == tcb[t].pri
    ensures Placed(tcb[t := v], ready)
  {
  }

  lemma LeaveGone(s: State, t: Tid)
    requires Shape(s) && t < |s.tcb| && s.tcb[t].tstat.Waiting?
    requires s.tcb[t].tstat.on.Wobj? && s.tcb[t].tstat.on.q < |s.wq| ==> t !in s.wq[s.tcb[t].tstat.on.q]
    ensures LeaveWaiting(s, t) == s.(evts := if s.tcb[t].tmo then s.evts - {t} else s.evts)
  {
    var v := s.tcb[t];
    if v.tstat.on.Wobj? && v.tstat.on.q < |s.wq| {
      RemoveAbsent(s.wq[v.tstat.on.q], t);
      assert s.wq[v.tstat.on.q := s.wq[v.tstat.on.q]] == s.wq;
    }
  }

  /** Ending a wait, update by update. */
  lemma WakeForm(s: State, t: Tid, er: Er)
    requires Shape(s) && t < |s.tcb| && s.tcb[t].tstat.Waiting?
    requires s.tcb[t].tstat.on.Wobj? && s.tcb[t].tstat.on.q < |s.wq| ==> t !in s.wq[s.tcb[t].tstat.on.q]
    ensures var v := s.tcb[t];
      var s1 := s.(evts := if v.tmo then s.evts - {t} else s.evts, tcb := s.tcb[t := v.(wercd := er)]);
      Wake(s, t, er) == if v.tstat.susp then s1.(tcb := s1.tcb[t := v.(wercd := er, tstat := Suspended)])
                        else S.MakeActive(s1, t)
  {
    hide LeaveWaiting;
    var v := s.tcb[t];
    LeaveGone(s, t);
    UpdateTwice(s.tcb, t, v.(wercd := er), Woken(v, er));
  }

  lemma WaitForm(s: State, r: Tid, on: WaitOn, tmo: bool)
    requires Shape(s) && r < |s.tcb|
    ensures var s1 := s.(tcb := s.tcb[r := s.tcb[r].(tstat := Waiting(false, on))]);
      var s2 := S.MakeNonRunnable(s1, r);
      S.MakeWait(s, r, on, tmo) == s2.(tcb := s2.tcb[r := s2.tcb[r].(tmo := tmo)],
                                       evts := if tmo then s.evts + {r} else s.evts)
  {
    UpdateTwice(s.tcb, r, s.tcb[r].(tstat := Waiting(false, on)), s.tcb[r].(tstat := Waiting(false, on), tmo := tmo));
  }

  lemma IdlePlaced(tcb: seq<Tcb>, ready: seq<seq<Tid>>, t: Tid, v: Tcb)
    requires Placed(tcb, ready) && t < |tcb| && Idle(ready, t)
    ensures Placed(tcb[t := v], ready)
  {
  }

  /** The waiting task as mutex_release rewrites it before make_non_wait. */
  ghost function Heir(s: State, m: nat, v: Tcb): Tcb {
    v.(wercd := E_OK, held := v.held + [m],
       pri := if IsCeil(s.inib, m) && Ceil(s.inib, m) < v.pri then Ceil(s.inib, m) else v.pri)
  }

  /** What mutex_release does to the waiting task it hands the mutex to. */
  ghost function Handed(s: State, m: nat, t: Tid): State
    requires Shape(s) && IsMtx(s, m) && t < |s.tcb| && s.tcb[t].tstat.Waiting?
  {
    var v := Heir(s, m, s.tcb[t]);
    var s1 := s.(tcb := s.tcb[t := v]);
    if v.tstat.susp then s1.(tcb := s1.tcb[t := v.(tstat := Suspended)]) else S.MakeActive(s1, t)
  }

  lemma HandedForm(s: State, m: nat, t: Tid)
    requires Shape(s) && IsMtx(s, m) && t < |s.tcb| && s.tcb[t].tstat.Waiting?
    ensures var v := Granted(s, m, s.tcb[t]);
      Handed(s, m, t) == s.(tcb := s.tcb[t := v],
        ready := if v.tstat.Suspended? then s.ready else s.ready[v.pri := s.ready[v.pri] + [t]])
  {
    hide Heir, Granted;
    var h := Heir(s, m, s.tcb[t]);
    HeirGranted(s, m, s.tcb[t]);
    UpdateTwice(s.tcb, t, h, Granted(s, m, s.tcb[t]));
  }

  lemma HeirGranted(s: State, m: nat, v: Tcb)
    requires v.tstat.Waiting?
    ensures Heir(s, m, v).tstat == v.tstat
    ensures Granted(s, m, v) == Heir(s, m, v).(tstat := if v.tstat.susp then Suspended else Runnable)
    ensures Granted(s, m, v).pri == Heir(s, m, v).pri
  {
  }

  /** mutex_release, update by update. */
  lemma ReleaseSteps(s: State, m: nat, ex: set<Tid>)
    requires Links(s, ex) && IsMtx(s, m)
    ensures s.wq[m] == [] ==> S.MutexRelease(s, m) == SetOwner(s, m, None)
    ensures s.wq[m] != [] ==>
      var t := s.wq[m][0];
      && t < |s.tcb| && s.tcb[t].tstat.Waiting? && Idle(s.ready, t)
      && S.MutexRelease(s, m) == Handed(s.(wq := s.wq[m := s.wq[m][1..]], objs := s.objs[m := MtxCb(Some(t))],
                                           evts := if s.tcb[t].tmo then s.evts - {t} else s.evts), m, t)
  {
    hide Handed, MakeActive, OrderOk, EvtOk, Woken;
    if s.wq[m] != [] {
      var t := s.wq[m][0];
      assert t in s.wq[m];
      ReleaseForm(s, m);
      assert Remove(s.wq[m], t) == s.wq[m][1..];
      HandedForm(s.(wq := s.wq[m := s.wq[m][1..]], objs := s.objs[m := MtxCb(Some(t))],
                    evts := if s.tcb[t].tmo then s.evts - {t} else s.evts), m, t);
    }
  }

  lemma TransitOut(s: State, t: Tid)
    requires Links(s, {t})
    ensures Idle(s.ready, t)
  {
  }

  lemma RunQueued(s: State, t: Tid)
    requires Links(s, {}) && t < |s.tcb|
    ensures if s.tcb[t].tstat.Runnable? then t in s.ready[s.tcb[t].pri] else Idle(s.ready, t)
    ensures forall q, u {:trigger u in s.wq[q]} :: 0 <= q < |s.wq| && u in s.wq[q] ==> u < |s.tcb|
    ensures forall q :: 0 <= q < |s.wq| ==> NoDup(s.wq[q])
  {
  }

  lemma ReleaseNone(s: State, t: Tid)
    requires Shape(s) && t < |s.tcb|
    ensures S.ReleaseAll(s, t, []) == s
  {
  }

  lemma CachedTop(ready: seq<seq<Tid>>, primap: bv16, schedtsk: Option<Tid>)
    requires Cached(ready, primap, schedtsk)
    ensures schedtsk == Top(ready)
  {
  }

  lemma FreeOut(s: State)
    requires Core(s) && s.freeTcb != []
    ensures s.freeTcb[0] < |s.tcb| && Idle(s.ready, s.freeTcb[0])
  {
    assert s.freeTcb[0] in s.freeTcb;
  }

  /** After the tasks waiting for a mutex are released. */
  lemma Stripped(s: State, m: nat)
    requires Core(s) && IsMtx(s, m)
    ensures var s1 := S.WakeAll(s, s.wq[m]);
      && Links(s1, {}) && s1.objs == s.objs && s1.inib == s.inib
      && (s1.objs[m].loctsk.Some? ==> s1.objs[m].loctsk.value < |s1.tcb|)
  {
    hide ReadyOk, WaitOk, OrderOk, EvtOk, PriOk, ObjOk, S.WakeAll;
    WakeAllCore(s, m);
  }

  /** check_flg_cond on a waiting task whose condition holds. */
  ghost function FlgHit(s: State, o: nat, t: Tid): State
    requires Shape(s) && IsFlg(s, o) && t < |s.tcb|
    ensures Shape(FlgHit(s, o, t)) && |FlgHit(s, o, t).tcb| == |s.tcb|
    ensures FlgHit(s, o, t).tcb[t].tstat == s.tcb[t].tstat
  {
    s.(tcb := s.tcb[t := s.tcb[t].(flgptn := s.objs[o].ptn)],
       objs := s.objs[o := FlgCb(if s.inib[o].clr then 0 else s.objs[o].ptn)])
  }

  /** One turn of the walk of set_flg along the waiting tasks ts. */
  lemma WalkStep(s: State, o: nat, ts: seq<Tid>)
    requires Walking(s, o, ts) && ts != []
    ensures var t := ts[0]; t < |s.tcb| && WaitsOn(s.tcb[t], o) && Idle(s.ready, t) && Shape(s) && IsFlg(s, o)
    ensures forall q :: 0 <= q < |s.wq| ==> NoDup(s.wq[q])
    ensures var t := ts[0]; var v := s.tcb[t]; var s1 := FlgHit(s, o, t);
      if FlgCond(s.objs[o].ptn, v.waiptn, v.orw) then
        && Walking(S.Wake(s1, t, E_OK), o, if s.inib[o].clr then [] else ts[1..])
        && S.FlgWalk(s, o, ts) == S.FlgWalk(S.Wake(s1, t, E_OK), o, if s.inib[o].clr then [] else ts[1..])
      else Walking(s, o, ts[1..]) && S.FlgWalk(s, o, ts) == S.FlgWalk(s, o, ts[1..])
  {
    hide OrderOk, EvtOk, OwnOk, PriOk, FlgCond, ObjOk, FlgFalse;
    var t := ts[0];
    assert t in ts;
    WalkWaiting(s, o, t);
    RunQueued(s, t);
    if FlgCond(s.objs[o].ptn, s.tcb[t].waiptn, s.tcb[t].orw) {
      var s2 := WalkHit(s, o, ts);
    } else {
      WalkMiss(s, o, ts);
    }
  }

  /** The queues do not depend on what a data queue stores. */
  lemma ItemsLinks(s: State, s1: State, o: nat)
    requires Links(s, {}) && s1 == s.(objs := s1.objs) && Shape(s1)
    ensures Links(s1, {})
  {
  }

  ghost predicate Dormants(s: State, ts: seq<Tid>) {
    NoDup(ts) && forall t :: t in ts ==> t < |s.tcb| && s.tcb[t].exs && s.tcb[t].tstat.Dormant?
  }

  lemma BootStart(cfg: seq<TaskCfg>, inib: seq<Inib>, acts: seq<Tid>)
    requires CfgOk(cfg, inib, acts)
    ensures Core(Blank(cfg, inib)) && Dormants(Blank(cfg, inib), acts)
  {
    BlankCore(cfg, inib);
  }

  lemma EmptyStart(tcb: seq<Tcb>, ready: seq<seq<Tid>>)
    requires |ready| == 16 && forall p :: 0 <= p < 16 ==> ready[p] == []
    ensures Placed(tcb, ready) && Cached(ready, 0, None)
  {
    TopNone(ready);
    forall p: Pri ensures !Bitmap.Has(0, p) {
      Bitmap.NoBits(p);
    }
  }

  lemma StartStep(s: State, ts: seq<Tid>)
    requires Core(s) && Dormants(s, ts) && ts != []
    ensures ts[0] < |s.tcb| && Idle(s.ready, ts[0])
    ensures Core(S.MakeActive(s, ts[0])) && Dormants(S.MakeActive(s, ts[0]), ts[1..])
    ensures StartAll(s, ts) == StartAll(S.MakeActive(s, ts[0]), ts[1..])
  {
    hide WaitOk, OrderOk, EvtOk, OwnOk, PriOk, ObjOk;
    assert ts[0] in ts;
    ActiveCore(s, ts[0]);
    TailOf(ts);
  }

  lemma BlankFlags(cfg: seq<TaskCfg>, inib: seq<Inib>)
    ensures Blank(cfg, inib).dspflg && !Blank(cfg, inib).intctx
  {
  }

  /** The running task leaves its queue with dispatching made possible again. */
  lemma ExtStart(s: State, s1: State, r: Tid)
    requires Core(s) && r < |s.tcb| && s.tcb[r].tstat.Runnable?
    requires s1 == s.(disdsp := false, ipmflg := true, dspflg := true)
    ensures r in s1.ready[s1.tcb[r].pri] && Good(S.MakeNonRunnable(s1, r), {r}, {})
    ensures ObjsOk(S.MakeNonRunnable(s1, r))
  {
    hide ReadyOk, WaitOk, OrderOk, EvtOk, OwnOk, PriOk, ObjOk;
    FlagsMtx(s, s1);
    FewerWaiters(s, s1);
    DetachGood(s1, r);
    RunQueued(s1, r);
  }
}
