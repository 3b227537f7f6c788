/** Locking, unlocking and termination keep the mutex invariant: priorities are
    base priorities raised by the ceilings held, and owners and mutex lists agree. */
module KernelMutex {
  import opened Lists
  import opened KernelSpec
  import opened KernelInv
  import opened KernelKeeps

  // ---- the priority calculation ---------------------------------------------------

  /** p is the base priority raised by exactly the ceilings held. */
  ghost predicate IsRaised(inib: seq<Inib>, bpri: Pri, held: seq<nat>, p: Pri) {
    && p <= bpri
    && (forall m :: m in held && IsCeil(inib, m) ==> p <= Ceil(inib, m))
    && (p == bpri || exists m :: m in held && IsCeil(inib, m) && Ceil(inib, m) == p)
  }

  lemma {:induction false} CalcPriSpec(inib: seq<Inib>, bpri: Pri, held: seq<nat>)
    ensures IsRaised(inib, bpri, held, CalcPri(inib, bpri, held))
  {
    if held != [] {
      CalcPriSpec(inib, bpri, held[1..]);
      assert held == [held[0]] + held[1..];
      assert forall m :: m in held <==> m == held[0] || m in held[1..];
    }
  }

  /** mutex_calc_priority computes the only such priority. */
  lemma CalcPriUnique(inib: seq<Inib>, bpri: Pri, held: seq<nat>, p: Pri)
    requires IsRaised(inib, bpri, held, p)
    ensures p == CalcPri(inib, bpri, held)
  {
    CalcPriSpec(inib, bpri, held);
  }

  lemma CalcSnoc(inib: seq<Inib>, bpri: Pri, held: seq<nat>, m: nat)
    ensures CalcPri(inib, bpri, held + [m]) ==
      var p := CalcPri(inib, bpri, held);
      if IsCeil(inib, m) && Ceil(inib, m) < p then Ceil(inib, m) else p
  {
    CalcPriSpec(inib, bpri, held);
    var p := CalcPri(inib, bpri, held);
    var p1 := if IsCeil(inib, m) && Ceil(inib, m) < p then Ceil(inib, m) else p;
    assert forall x :: x in held + [m] <==> x in held || x == m;
    CalcPriUnique(inib, bpri, held + [m], p1);
  }

  /** Giving up a ceiling that did not make the priority leaves it as it is. */
  lemma CalcRemove(inib: seq<Inib>, bpri: Pri, held: seq<nat>, m: nat)
    requires NoDup(held)
    requires IsCeil(inib, m) ==> Ceil(inib, m) != CalcPri(inib, bpri, held)
    ensures CalcPri(inib, bpri, Remove(held, m)) == CalcPri(inib, bpri, held)
  {
    RemoveSpec(held, m);
    CalcPriSpec(inib, bpri, held);
    CalcPriUnique(inib, bpri, Remove(held, m), CalcPri(inib, bpri, held));
  }

  /** While a ceiling is held, the base priority may move above all ceilings. */
  lemma CalcRebase(inib: seq<Inib>, b0: Pri, b1: Pri, held: seq<nat>)
    requires forall m :: m in held ==> CeilOk(inib, b0, m) && CeilOk(inib, b1, m)
    requires exists m :: m in held && IsCeil(inib, m)
    ensures CalcPri(inib, b0, held) == CalcPri(inib, b1, held)
  {
    CalcPriSpec(inib, b0, held);
    var c :| c in held && IsCeil(inib, c);
    assert CeilOk(inib, b0, c) && CeilOk(inib, b1, c);
    var p := CalcPri(inib, b0, held);
    var m :| m in held && IsCeil(inib, m) && Ceil(inib, m) == p;
    assert CeilOk(inib, b1, m);
    CalcPriUnique(inib, b1, held, p);
  }

  /** With no ceiling held, the priority is the base priority. */
  lemma CalcNone(inib: seq<Inib>, bpri: Pri, held: seq<nat>)
    requires forall m :: m in held ==> !IsCeil(inib, m)
    ensures CalcPri(inib, bpri, held) == bpri
  {
    CalcPriSpec(inib, bpri, held);
  }

  // ---- what a step never touches -------------------------------------------------

  /** Flags and the running task stay, no task loses its existence, and what was
      runnable stays runnable. */
  ghost predicate Onward(s: State, s1: State) {
    && |s1.tcb| == |s.tcb|
    && s1.run == s.run && s1.intctx == s.intctx && s1.dspflg == s.dspflg
    && s1.ipmflg == s.ipmflg && s1.disdsp == s.disdsp
    && s1.freeTcb == s.freeTcb && s1.inib == s.inib
    && (forall t :: 0 <= t < |s.tcb| ==> s1.tcb[t].exs == s.tcb[t].exs)
    && (forall t :: 0 <= t < |s.tcb| && s.tcb[t].tstat.Runnable? ==> s1.tcb[t].tstat.Runnable?)
    && (forall t :: 0 <= t < |s.tcb| && s.tcb[t].tstat.Dormant? ==> s1.tcb[t].tstat.Dormant?)
  }

  // ---- locking -----------------------------------------------------------------------

  lemma AcquireGood(s: State, r: Tid, m: nat)
    requires Good(s, {}, {}) && ObjsOk(s) && r < |s.tcb| && s.tcb[r].tstat.Runnable?
    requires IsMtx(s, m) && s.objs[m].loctsk == None && CeilOk(s.inib, s.tcb[r].bpri, m)
    ensures Good(MutexAcquire(s, r, m), {}, {}) && ObjsOk(MutexAcquire(s, r, m))
    ensures Onward(s, MutexAcquire(s, r, m))
  {
    hide ReadyOk, WaitOk, OrderOk, EvtOk, ObjOk, MutexAcquire;
    var v := s.tcb[r];
    var held := [m] + v.held;
    var s1 := SetHeld(SetOwner(s, m, Some(r)), r, held);
    AcquireLinks(s, r, m);
    var s2 := MutexAcquire(s, r, m);
    OwnAcquired(s, s2, r, m);
    PriAcquired(s, s2, r, m);
    AcquireObjs(s, s2, r, m);
  }

  lemma AcquireLinks(s: State, r: Tid, m: nat)
    requires Links(s, {}) && r < |s.tcb| && IsMtx(s, m)
    requires s.tcb[r].pri == CalcPri(s.inib, s.tcb[r].bpri, s.tcb[r].held)
    ensures var s2 := MutexAcquire(s, r, m); var v := s.tcb[r]; var held := [m] + v.held;
      && Links(s2, {})
      && s2 == s.(tcb := s.tcb[r := v.(held := held, pri := CalcPri(s.inib, v.bpri, held))],
                  ready := s2.ready, wq := s2.wq, objs := s.objs[m := MtxCb(Some(r))])
      && (forall q :: 0 <= q < |s.wq| ==> |s2.wq[q]| <= |s.wq[q]|)
      && (forall q, u {:trigger u in s2.wq[q]} :: 0 <= q < |s.wq| && u in s2.wq[q] ==> u in s.wq[q])
  {
    hide ReadyOk, WaitOk, OrderOk, EvtOk;
    var v := s.tcb[r];
    var held := [m] + v.held;
    var s0 := SetOwner(s, m, Some(r));
    var s1 := SetHeld(s0, r, held);
    SameLinks(s0, s1.tcb, {});
    assert held[1..] == v.held;
    if IsCeil(s.inib, m) && Ceil(s.inib, m) < v.pri {
      ChangePriorityLinks(s1, r, Ceil(s.inib, m), true, {});
      ChangePriorityEffect(s1, r, Ceil(s.inib, m), true, {});
      UpdateTwice(s.tcb, r, v.(held := held), v.(held := held, pri := Ceil(s.inib, m)));
    }
  }

  lemma PriAcquired(s: State, s2: State, r: Tid, m: nat)
    requires PriOk(s, {}) && r < |s.tcb| && CeilOk(s.inib, s.tcb[r].bpri, m) && !s.tcb[r].tstat.Dormant?
    requires |s2.tcb| == |s.tcb| && s2.inib == s.inib
    requires s2.tcb == s.tcb[r := s.tcb[r].(held := [m] + s.tcb[r].held,
                                           pri := CalcPri(s.inib, s.tcb[r].bpri, [m] + s.tcb[r].held))]
    ensures PriOk(s2, {})
  {
  }

  lemma AcquireObjs(s: State, s2: State, r: Tid, m: nat)
    requires ObjsOk(s) && IsMtx(s, m) && Keeps(s, s2) && s2.objs == s.objs[m := MtxCb(Some(r))]
    requires forall q :: 0 <= q < |s.wq| ==> |s2.wq[q]| <= |s.wq[q]|
    requires forall q, u {:trigger u in s2.wq[q]} :: 0 <= q < |s.wq| && u in s2.wq[q] ==> u in s.wq[q]
    requires forall u :: 0 <= u < |s.tcb| ==>
      s2.tcb[u].waiptn == s.tcb[u].waiptn && s2.tcb[u].orw == s.tcb[u].orw
    ensures ObjsOk(s2)
  {
    forall o | 0 <= o < |s.inib| ensures ObjOk(s2, o) {
      if o != m {
        ShrunkOk(s, s2, o);
      } else {
        assert ObjOk(s, o);
      }
    }
  }

  lemma OwnAcquired(s: State, s2: State, r: Tid, m: nat)
    requires OwnOk(s, {}) && r < |s.tcb| && IsMtx(s, m) && s.objs[m].loctsk == None
    requires Keeps(s, s2) && s2.objs == s.objs[m := MtxCb(Some(r))]
    requires s2.tcb[r].held == [m] + s.tcb[r].held
    requires forall t :: 0 <= t < |s.tcb| && t != r ==> s2.tcb[t] == s.tcb[t]
    ensures OwnOk(s2, {})
  {
    assert m !in s.tcb[r].held;
    ConsNoDup(m, s.tcb[r].held);
  }

  // ---- unlocking ------------------------------------------------------------------------

  lemma UnholdEffect(s: State, t: Tid, m: nat, ex: set<Tid>)
    requires Links(s, ex) && t < |s.tcb| && t !in ex && IsMtx(s, m)
    requires NoDup(s.tcb[t].held) && s.tcb[t].pri == CalcPri(s.inib, s.tcb[t].bpri, s.tcb[t].held)
    ensures var s1 := Unhold(s, t, m); var v := s.tcb[t]; var held := Remove(v.held, m);
      && Links(s1, ex)
      && s1 == s.(tcb := s.tcb[t := v.(held := held, pri := CalcPri(s.inib, v.bpri, held))],
                  ready := s1.ready, wq := s1.wq)
      && (forall q, u {:trigger u in s1.wq[q]} {:trigger u in s.wq[q]} :: 0 <= q < |s.wq| ==>
            (u in s1.wq[q] <==> u in s.wq[q]))
      && (forall q :: 0 <= q < |s.wq| ==> |s1.wq[q]| == |s.wq[q]|)
  {
    var v := s.tcb[t];
    var held := Remove(v.held, m);
    var s1 := SetHeld(s, t, held);
    SameLinks(s, s1.tcb, ex);
    var newpri := CalcPri(s.inib, v.bpri, held);
    if IsCeil(s.inib, m) && Ceil(s.inib, m) == v.pri {
      if newpri != v.pri {
        ChangePriorityLinks(s1, t, newpri, true, ex);
        ChangePriorityEffect(s1, t, newpri, true, ex);
        UpdateTwice(s.tcb, t, v.(held := held), v.(held := held, pri := newpri));
      }
    } else {
      CalcRemove(s.inib, v.bpri, v.held, m);
    }
  }

  lemma UnholdGood(s: State, t: Tid, m: nat)
    requires Good(s, {}, {}) && ObjsOk(s) && IsMtx(s, m) && s.objs[m].loctsk == Some(t)
    ensures t < |s.tcb| && Good(Unhold(s, t, m), {}, {m}) && ObjsOk(Unhold(s, t, m))
    ensures Onward(s, Unhold(s, t, m))
  {
    hide ReadyOk, WaitOk, OrderOk, EvtOk, ObjOk;
    UnholdEffect(s, t, m, {});
    var s1 := Unhold(s, t, m);
    OwnUnheld(s, s1, t, m);
    PriUnheld(s, s1, t, m, {});
    FewerWaiters(s, s1);
  }

  lemma OwnUnheld(s: State, s1: State, t: Tid, m: nat)
    requires OwnOk(s, {}) && t < |s.tcb| && m in s.tcb[t].held
    requires Keeps(s, s1) && s1.objs == s.objs && s1.tcb[t].held == Remove(s.tcb[t].held, m)
    requires forall u :: 0 <= u < |s.tcb| && u != t ==> s1.tcb[u].held == s.tcb[u].held
    ensures OwnOk(s1, {m})
  {
    RemoveSpec(s.tcb[t].held, m);
  }

  lemma PriUnheld(s: State, s1: State, t: Tid, m: nat, ex: set<Tid>)
    requires OwnOk(s, {}) && PriOk(s, ex) && t < |s.tcb| && |s1.tcb| == |s.tcb| && s1.inib == s.inib
    requires var held := Remove(s.tcb[t].held, m); var v := s1.tcb[t];
      && v == s.tcb[t].(held := held, pri := v.pri)
      && (t in ex || v.pri == CalcPri(s.inib, v.bpri, held))
    requires forall u :: 0 <= u < |s.tcb| && u != t ==> s1.tcb[u] == s.tcb[u]
    ensures PriOk(s1, ex)
  {
    RemoveSpec(s.tcb[t].held, m);
  }

  /** What mutex_release does when a task is waiting: the head t of the queue owns m. */
  function Granted(s: State, m: nat, v: Tcb): Tcb
    requires v.tstat.Waiting?
  {
    Woken(v.(held := v.held + [m],
             pri := if IsCeil(s.inib, m) && Ceil(s.inib, m) < v.pri then Ceil(s.inib, m) else v.pri), E_OK)
  }

  lemma ReleaseForm(s: State, m: nat)
    requires Shape(s) && IsMtx(s, m) && s.wq[m] != []
    requires s.wq[m][0] < |s.tcb| && s.tcb[s.wq[m][0]].tstat.Waiting?
    ensures var t := s.wq[m][0]; var v := Granted(s, m, s.tcb[t]); var s1 := LeaveWaiting(s, t);
      MutexRelease(s, m) == s1.(
        tcb := s.tcb[t := v],
        ready := if v.tstat.Suspended? then s.ready else s.ready[v.pri := s.ready[v.pri] + [t]],
        objs := s.objs[m := MtxCb(Some(t))])
  {
    var t := s.wq[m][0];
    var g := Grant(s, m, t);
    assert g.tcb[t].tstat == s.tcb[t].tstat;
    UpdateTwice(s.tcb, t, g.tcb[t], Granted(s, m, s.tcb[t]));
  }

  lemma ReleaseGood(s: State, m: nat, ex: set<Tid>)
    requires Good(s, ex, {m}) && ObjsOk(s) && IsMtx(s, m)
    ensures Good(MutexRelease(s, m), ex, {}) && ObjsOk(MutexRelease(s, m))
    ensures Onward(s, MutexRelease(s, m))
    ensures forall t :: 0 <= t < |s.tcb| && t in ex ==> MutexRelease(s, m).tcb[t] == s.tcb[t]
  {
    if s.wq[m] == [] {
      ReleaseNobody(s, m, ex);
    } else {
      ReleaseHead(s, m, ex);
    }
  }

  lemma ReleaseNobody(s: State, m: nat, ex: set<Tid>)
    requires Good(s, ex, {m}) && ObjsOk(s) && IsMtx(s, m) && s.wq[m] == []
    ensures Good(SetOwner(s, m, None), ex, {}) && ObjsOk(SetOwner(s, m, None))
  {
    var s9 := SetOwner(s, m, None);
    assert OwnOk(s9, {});
    forall o | 0 <= o < |s.inib| ensures ObjOk(s9, o) {
      assert ObjOk(s, o);
    }
  }

  lemma ReleaseHead(s: State, m: nat, ex: set<Tid>)
    requires Good(s, ex, {m}) && ObjsOk(s) && IsMtx(s, m) && s.wq[m] != []
    ensures Good(MutexRelease(s, m), ex, {}) && ObjsOk(MutexRelease(s, m))
    ensures Onward(s, MutexRelease(s, m))
    ensures forall t :: 0 <= t < |s.tcb| && t in ex ==> MutexRelease(s, m).tcb[t] == s.tcb[t]
  {
    hide ReadyOk, WaitOk, OrderOk, EvtOk, OwnOk, PriOk, ObjOk, MutexRelease;
    var s9 := MutexRelease(s, m);
    var t := s.wq[m][0];
    ReleaseHeadLinks(s, m, ex);
    ReleaseMtx(s, s9, t, m, ex);
    AcquireObjs(s, s9, t, m);
  }

  lemma ReleaseHeadLinks(s: State, m: nat, ex: set<Tid>)
    requires Links(s, ex) && IsMtx(s, m) && s.wq[m] != []
    ensures var t := s.wq[m][0]; var s9 := MutexRelease(s, m);
      && Links(s9, ex) && t < |s.tcb| && t !in ex && WaitsOn(s.tcb[t], m)
      && s9 == s.(tcb := s.tcb[t := Granted(s, m, s.tcb[t])], ready := s9.ready, wq := s9.wq,
                  evts := s9.evts, objs := s.objs[m := MtxCb(Some(t))])
      && (forall q :: 0 <= q < |s.wq| ==> |s9.wq[q]| <= |s.wq[q]|)
      && (forall q, u {:trigger u in s9.wq[q]} :: 0 <= q < |s.wq| && u in s9.wq[q] ==> u in s.wq[q])
  {
    var t := s.wq[m][0];
    assert t in s.wq[m];
    ReleaseForm(s, m);
    var v := Granted(s, m, s.tcb[t]);
    LeaveWait(s, t, ex);
    LeaveEffect(s, t);
    hide ReadyOk, WaitOk, OrderOk, EvtOk, MutexRelease, LeaveWaiting;
    Arrive(LeaveWaiting(s, t), t, v, ex);
  }

  lemma ReleaseMtx(s: State, s9: State, t: Tid, m: nat, ex: set<Tid>)
    requires MtxOk(s, ex, {m}) && IsMtx(s, m) && t < |s.tcb| && t !in ex
    requires WaitsOn(s.tcb[t], m) && Keeps(s, s9)
    requires s9.tcb == s.tcb[t := Granted(s, m, s.tcb[t])] && s9.objs == s.objs[m := MtxCb(Some(t))]
    ensures MtxOk(s9, ex, {})
  {
    OwnGranted(s, s9, t, m);
    PriGranted(s, s9, t, m, ex);
  }

  lemma OwnGranted(s: State, s9: State, t: Tid, m: nat)
    requires OwnOk(s, {m}) && IsMtx(s, m) && t < |s.tcb| && s.tcb[t].tstat.Waiting? && Keeps(s, s9)
    requires s9.tcb == s.tcb[t := Granted(s, m, s.tcb[t])] && s9.objs == s.objs[m := MtxCb(Some(t))]
    ensures OwnOk(s9, {})
  {
    assert m !in s.tcb[t].held;
    SnocNoDup(s.tcb[t].held, m);
  }

  lemma PriGranted(s: State, s9: State, t: Tid, m: nat, ex: set<Tid>)
    requires PriOk(s, ex) && IsMtx(s, m) && t < |s.tcb| && t !in ex && WaitsOn(s.tcb[t], m) && Keeps(s, s9)
    requires s9.tcb == s.tcb[t := Granted(s, m, s.tcb[t])]
    ensures PriOk(s9, ex)
  {
    CalcSnoc(s.inib, s.tcb[t].bpri, s.tcb[t].held, m);
  }

  // ---- releasing everything, terminating --------------------------------------------------

  lemma {:induction false} ReleaseAllGood(s: State, t: Tid, ex: set<Tid>)
    requires Good(s, ex, {}) && ObjsOk(s) && t < |s.tcb| && t in ex
    ensures var s1 := ReleaseAll(s, t, s.tcb[t].held);
      && Good(s1, ex, {}) && ObjsOk(s1) && Onward(s, s1)
      && s1.tcb[t] == s.tcb[t].(held := [])
    decreases |s.tcb[t].held|
  {
    hide ReadyOk, WaitOk, OrderOk, EvtOk, OwnOk, PriOk, ObjOk, MutexRelease;
    var held := s.tcb[t].held;
    if held != [] {
      var m := held[0];
      PopGood(s, t, ex);
      var s1 := SetHeld(s, t, held[1..]);
      ReleaseGood(s1, m, ex);
      ReleaseAllGood(MutexRelease(s1, m), t, ex);
    } else {
      assert s.tcb[t].(held := []) == s.tcb[t];
    }
  }

  /** A task in transit drops the first mutex of its list, still owned on paper. */
  lemma PopGood(s: State, t: Tid, ex: set<Tid>)
    requires Good(s, ex, {}) && ObjsOk(s) && t < |s.tcb| && t in ex && s.tcb[t].held != []
    ensures var held := s.tcb[t].held; var s1 := SetHeld(s, t, held[1..]);
      IsMtx(s, held[0]) && Good(s1, ex, {held[0]}) && ObjsOk(s1) && Onward(s, s1)
  {
    hide ReadyOk, WaitOk, OrderOk, EvtOk, PriOk, ObjOk;
    var held := s.tcb[t].held;
    var m := held[0];
    assert m in held;
    var s1 := SetHeld(s, t, held[1..]);
    assert Remove(held, m) == held[1..];
    SameLinks(s, s1.tcb, ex);
    OwnUnheld(s, s1, t, m);
    PriUnheld(s, s1, t, m, ex);
    FewerWaiters(s, s1);
  }

  lemma DetachGood(s: State, t: Tid)
    requires Good(s, {}, {}) && ObjsOk(s) && t < |s.tcb| && !s.tcb[t].tstat.Dormant?
    ensures Good(Detach(s, t), {t}, {}) && ObjsOk(Detach(s, t)) && Onward(s, Detach(s, t))
    ensures Detach(s, t).tcb == s.tcb
  {
    hide ReadyOk, WaitOk, OrderOk, EvtOk, ObjOk, Detach;
    DetachLinks(s, t);
    FewerWaiters(s, Detach(s, t));
  }

  lemma DetachLinks(s: State, t: Tid)
    requires Links(s, {}) && t < |s.tcb| && !s.tcb[t].tstat.Dormant?
    ensures var s1 := Detach(s, t);
      && Links(s1, {t}) && s1 == s.(ready := s1.ready, wq := s1.wq, evts := s1.evts)
      && (forall q :: 0 <= q < |s.wq| ==> |s1.wq[q]| <= |s.wq[q]|)
      && (forall q, u {:trigger u in s1.wq[q]} :: 0 <= q < |s.wq| && u in s1.wq[q] ==> u in s.wq[q])
  {
    assert {} + {t} == {t};
    if s.tcb[t].tstat.Runnable? {
      LeaveReady(s, t, {});
    } else if s.tcb[t].tstat.Waiting? {
      LeaveWait(s, t, {});
      LeaveEffect(s, t);
    } else {
      LeaveIdle(s, t, {});
    }
  }

  /** A task that holds nothing and is in transit becomes dormant. */
  lemma DormantGood(s: State, t: Tid)
    requires Good(s, {t}, {}) && ObjsOk(s) && t < |s.tcb| && s.tcb[t].held == []
    ensures Good(MakeDormant(s, t), {}, {}) && ObjsOk(MakeDormant(s, t))
  {
    hide ReadyOk, WaitOk, OrderOk, EvtOk, ObjOk;
    var s1 := MakeDormant(s, t);
    SameLinks(s, s1.tcb, {t});
    EnterIdle(s1, t, {t});
    assert {t} - {t} == {};
    assert OwnOk(s1, {}) && PriOk(s1, {});
    FewerWaiters(s, s1);
  }

  lemma ActiveGood(s: State, t: Tid)
    requires Good(s, {}, {}) && ObjsOk(s) && t < |s.tcb| && s.tcb[t].exs
    requires s.tcb[t].tstat.Dormant? || s.tcb[t].tstat.Suspended?
    ensures Good(MakeActive(s, t), {}, {}) && ObjsOk(MakeActive(s, t))
  {
    hide ReadyOk, WaitOk, OrderOk, EvtOk, ObjOk;
    LeaveIdle(s, t, {});
    EnterReady(s, t, {} + {t});
    assert {} + {t} - {t} == {};
    SameMtx(s, MakeActive(s, t), {}, {});
    FewerWaiters(s, MakeActive(s, t));
  }

  /** ext_tsk and ter_tsk, once the task is out of every queue. */
  lemma FinishGood(s: State, t: Tid)
    requires Good(s, {t}, {}) && ObjsOk(s) && t < |s.tcb| && s.tcb[t].exs
    ensures var s1 := Finish(s, t);
      && Good(s1, {}, {}) && ObjsOk(s1)
      && s1.run == s.run && s1.intctx == s.intctx && s1.dspflg == s.dspflg
      && s1.ipmflg == s.ipmflg && s1.disdsp == s.disdsp
      && s1.tcb[t].held == [] && s1.tcb[t].bpri == s.tcb[t].ini.ipri
      && (forall u :: 0 <= u < |s.tcb| && u != t && s.tcb[u].tstat.Runnable? ==> s1.tcb[u].tstat.Runnable?)
  {
    hide ReadyOk, WaitOk, OrderOk, EvtOk, OwnOk, PriOk, ObjOk, ReleaseAll;
    ReleaseAllGood(s, t, {t});
    var s1 := ReleaseAll(s, t, s.tcb[t].held);
    DormantGood(s1, t);
    RestartGood(MakeDormant(s1, t), t);
  }

  /** A queued activation starts the dormant task again. */
  lemma RestartGood(s: State, t: Tid)
    requires Good(s, {}, {}) && ObjsOk(s) && t < |s.tcb| && s.tcb[t].exs && s.tcb[t].tstat.Dormant?
    ensures var s3 := s.(tcb := s.tcb[t := s.tcb[t].(actque := false)]);
      Good(MakeActive(s3, t), {}, {}) && ObjsOk(MakeActive(s3, t))
  {
    hide ReadyOk, WaitOk, OrderOk, EvtOk, ObjOk;
    var s3 := s.(tcb := s.tcb[t := s.tcb[t].(actque := false)]);
    SameLinks(s, s3.tcb, {});
    SameMtx(s, s3, {}, {});
    FewerWaiters(s, s3);
    ActiveGood(s3, t);
  }
}
