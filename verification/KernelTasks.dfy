/** Task management and synchronization calls keep the kernel invariant. */
module KernelTasks {
  import opened Lists
  import opened KernelSpec
  import opened KernelInv
  import opened KernelKeeps
  import opened KernelMutex
  import opened KernelSteps

  lemma ActiveCore(s: State, t: Tid)
    requires Core(s) && t < |s.tcb| && s.tcb[t].exs
    requires s.tcb[t].tstat.Dormant? || s.tcb[t].tstat.Suspended?
    ensures Core(MakeActive(s, t)) && Calm(s, MakeActive(s, t))
  {
    hide ReadyOk, WaitOk, OrderOk, EvtOk, ObjOk, OwnOk, PriOk;
    ActiveGood(s, t);
  }

  lemma ActTskCore(s: State, t: Tid)
    requires Core(s)
    ensures Core(ActTsk(s, t).0) && Calm(s, ActTsk(s, t).0)
  {
    hide ReadyOk, WaitOk, OrderOk, EvtOk, ObjOk, OwnOk, PriOk;
    if t < |s.tcb| && s.tcb[t].exs {
      if s.tcb[t].tstat.Dormant? {
        ActiveCore(s, t);
      } else if !s.tcb[t].actque {
        FieldCore(s, t, s.tcb[t].(actque := true));
      }
    }
  }

  lemma ExtTskInv(s: State, r: Tid)
    requires Inv(s) && s.run == Some(r)
    ensures Inv(ExtTsk(s, r).0)
  {
    hide ReadyOk, WaitOk, OrderOk, EvtOk, ObjOk, OwnOk, PriOk, Finish;
    var s1 := s.(disdsp := false, ipmflg := true, dspflg := true);
    FewerWaiters(s, s1);
    FlagsMtx(s, s1);
    DetachGood(s1, r);
    assert Detach(s1, r) == MakeNonRunnable(s1, r);
    FinishGood(MakeNonRunnable(s1, r), r);
    var s2 := Finish(MakeNonRunnable(s1, r), r);
    SettleInv(s2);
  }

  lemma TerTskInv(s: State, r: Tid, t: Tid)
    requires Inv(s) && s.run == Some(r)
    ensures Inv(TerTsk(s, r, t).0)
  {
    hide ReadyOk, WaitOk, OrderOk, EvtOk, ObjOk, OwnOk, PriOk, Finish;
    if t < |s.tcb| && t != r && s.tcb[t].exs && !s.tcb[t].tstat.Dormant? {
      DetachGood(s, t);
      FinishGood(Detach(s, t), t);
      var s2 := Finish(Detach(s, t), t);
      SettleInv(s2);
    }
  }

  /** chg_pri of a task that holds a ceiling: only the base priority changes. */
  lemma RebaseCore(s: State, t: Tid, newb: Pri)
    requires Core(s) && t < |s.tcb| && CheckCeilpri(s, t, newb) && ScanCeilmtx(s, t)
    ensures Core(s.(tcb := s.tcb[t := s.tcb[t].(bpri := newb)]))
  {
    hide ReadyOk, WaitOk, OrderOk, EvtOk, ObjOk, OwnOk, PriOk;
    var s1 := s.(tcb := s.tcb[t := s.tcb[t].(bpri := newb)]);
    RebaseMtx(s, t, newb);
    SameLinks(s, s1.tcb, {});
    FewerWaiters(s, s1);
  }

  lemma RebaseMtx(s: State, t: Tid, newb: Pri)
    requires MtxOk(s, {}, {}) && t < |s.tcb| && CheckCeilpri(s, t, newb) && ScanCeilmtx(s, t)
    ensures MtxOk(s.(tcb := s.tcb[t := s.tcb[t].(bpri := newb)]), {}, {})
  {
    CalcRebase(s.inib, s.tcb[t].bpri, newb, s.tcb[t].held);
  }

  /** chg_pri of a task that holds no ceiling: the current priority follows. */
  lemma FollowCore(s: State, t: Tid, newb: Pri)
    requires Core(s) && t < |s.tcb| && CheckCeilpri(s, t, newb) && !ScanCeilmtx(s, t)
    ensures var s1 := s.(tcb := s.tcb[t := s.tcb[t].(bpri := newb)]);
      Core(ChangePriority(s1, t, newb, false)) && Calm(s, ChangePriority(s1, t, newb, false))
  {
    hide ReadyOk, WaitOk, OrderOk, EvtOk, ObjOk, OwnOk, PriOk, ChangePriority, CheckCeilpri, ScanCeilmtx;
    FollowMtx(s, t, newb);
    FollowLinks(s, t, newb);
    var s2 := ChangePriority(s.(tcb := s.tcb[t := s.tcb[t].(bpri := newb)]), t, newb, false);
    FlagsMtx(s.(tcb := s.tcb[t := s.tcb[t].(bpri := newb, pri := newb)]), s2);
    FewerWaiters(s, s2);
  }

  lemma FollowLinks(s: State, t: Tid, newb: Pri)
    requires Links(s, {}) && t < |s.tcb|
    ensures var s1 := s.(tcb := s.tcb[t := s.tcb[t].(bpri := newb)]);
      var s2 := ChangePriority(s1, t, newb, false);
      && Links(s2, {})
      && s2 == s.(tcb := s.tcb[t := s.tcb[t].(bpri := newb, pri := newb)], ready := s2.ready, wq := s2.wq)
      && (forall q :: 0 <= q < |s.wq| ==> |s2.wq[q]| <= |s.wq[q]|)
      && (forall q, u {:trigger u in s2.wq[q]} :: 0 <= q < |s.wq| && u in s2.wq[q] ==> u in s.wq[q])
  {
    hide ReadyOk, WaitOk, OrderOk, EvtOk, ChangePriority;
    var v := s.tcb[t].(bpri := newb);
    var s1 := s.(tcb := s.tcb[t := v]);
    SameLinks(s, s1.tcb, {});
    ChangePriorityLinks(s1, t, newb, false, {});
    ChangePriorityEffect(s1, t, newb, false, {});
    UpdateTwice(s.tcb, t, v, v.(pri := newb));
  }

  lemma FollowMtx(s: State, t: Tid, newb: Pri)
    requires MtxOk(s, {}, {}) && t < |s.tcb| && CheckCeilpri(s, t, newb) && !ScanCeilmtx(s, t)
    ensures MtxOk(s.(tcb := s.tcb[t := s.tcb[t].(bpri := newb, pri := newb)]), {}, {})
  {
    CalcNone(s.inib, newb, s.tcb[t].held);
  }

  lemma ChgPriInv(s: State, r: Tid, t: Tid, p: Option<Pri>)
    requires Inv(s) && s.run == Some(r) && !s.intctx
    ensures Inv(ChgPri(s, r, t, p).0)
  {
    hide ReadyOk, WaitOk, OrderOk, EvtOk, ObjOk, OwnOk, PriOk, ChangePriority;
    if t < |s.tcb| && s.tcb[t].exs && !s.tcb[t].tstat.Dormant? {
      var newb := if p.None? then s.tcb[t].ini.ipri else p.value;
      if newb >= s.tcb[r].ini.minpri && CheckCeilpri(s, t, newb) {
        if ScanCeilmtx(s, t) {
          RebaseCore(s, t, newb);
          CalmInv(s, s.(tcb := s.tcb[t := s.tcb[t].(bpri := newb)]));
        } else {
          FollowCore(s, t, newb);
          CalmInv(s, ChangePriority(s.(tcb := s.tcb[t := s.tcb[t].(bpri := newb)]), t, newb, false));
        }
      }
    }
  }

  /** A free control block becomes a dormant task. */
  lemma AcreCore(s: State, ipri: Pri)
    requires Core(s)
    ensures Core(AcreTsk(s, ipri, false).0) && Calm(s, AcreTsk(s, ipri, false).0)
    ensures AcreTsk(s, ipri, false).0.ready == s.ready
  {
    hide ReadyOk, WaitOk, OrderOk, EvtOk, OwnOk, PriOk, ObjOk;
    if s.freeTcb != [] {
      var t := s.freeTcb[0];
      assert t in s.freeTcb;
      var s1 := AcreTsk(s, ipri, false).0;
      var v := s.tcb[t].(exs := true, ini := s.tcb[t].ini.(ipri := ipri), actque := false, held := []);
      var v1 := v.(tstat := Dormant, bpri := ipri, pri := ipri, wupque := false, waifbd := false);
      UpdateTwice(s.tcb, t, v, v1);
      assert s1.tcb == s.tcb[t := v1];
      assert Remove(s.freeTcb, t) == s.freeTcb[1..];
      RemoveSpec(s.freeTcb, t);
      FreshMtx(s, s1, t);
      LeaveIdle(s, t, {});
      SameLinks(s, s1.tcb, {} + {t});
      EnterIdle(s.(tcb := s1.tcb), t, {} + {t});
      assert {} + {t} - {t} == {};
      FewerWaiters(s, s1);
    }
  }

  /** acre_tsk drops the answer of make_active, so with TA_ACT it can leave dispatching
      due but not done.  It keeps the kernel invariant exactly when the new task does not
      take precedence over the running one, or dispatching is not enabled. */
  lemma AcreKeeps(s: State, ipri: Pri)
    requires Inv(s) && !s.intctx && s.run.Some? && s.freeTcb != []
    ensures Inv(AcreTsk(s, ipri, true).0) <==> !(s.dspflg && ipri < s.tcb[s.run.value].pri)
  {
    hide WaitOk, OrderOk, EvtOk, OwnOk, PriOk, ObjOk, AcreTsk;
    AcreCore(s, ipri);
    var t := s.freeTcb[0];
    assert t in s.freeTcb;
    var s1 := AcreTsk(s, ipri, false).0;
    AcreForm(s, ipri);
    ActiveCore(s1, t);
    var r := s.run.value;
    if s.dspflg {
      var p := TopFromInv(s.ready, 0);
      assert s.ready[p][0] in s.ready[p];
      NewTop(s.ready, p, ipri, t);
    }
  }

  lemma AcreForm(s: State, ipri: Pri)
    requires Shape(s) && s.freeTcb != [] && s.freeTcb[0] < |s.tcb|
    ensures var t := s.freeTcb[0]; var s1 := AcreTsk(s, ipri, false).0;
      && s1 == s.(freeTcb := s1.freeTcb, tcb := s1.tcb) && Keeps(s, s1)
      && s1.tcb[t].exs && s1.tcb[t].tstat.Dormant? && s1.tcb[t].pri == ipri && s1.tcb[t].held == []
      && (forall u :: 0 <= u < |s.tcb| && u != t ==> s1.tcb[u] == s.tcb[u])
      && AcreTsk(s, ipri, true).0 == MakeActive(s1, t)
  {
  }

  /** A task appended to queue n goes first exactly when n is above the highest queue. */
  lemma NewTop(ready: seq<seq<Tid>>, p: nat, n: nat, t: Tid)
    requires p < |ready| && ready[p] != [] && (forall i :: 0 <= i < p ==> ready[i] == []) && n < |ready|
    ensures Top(ready) == Some(ready[p][0])
    ensures Top(ready[n := ready[n] + [t]]) == Some(if n < p then t else ready[p][0])
  {
    TopIs(ready, p);
    TopIs(ready[n := ready[n] + [t]], if n < p then n else p);
  }

  lemma AcreTskInv(s: State, r: Tid, ipri: Pri, act: bool)
    requires Inv(s) && !s.intctx && s.run == Some(r) && Admits(s, Manage(OpAcreTsk(ipri, act)))
    ensures Inv(AcreTsk(s, ipri, act).0)
  {
    hide ReadyOk, WaitOk, OrderOk, EvtOk, OwnOk, PriOk, ObjOk;
    if s.freeTcb != [] {
      AcreCore(s, ipri);
      CalmInv(s, AcreTsk(s, ipri, false).0);
      if act {
        AcreKeeps(s, ipri);
      }
    }
  }

  lemma FreshMtx(s: State, s1: State, t: Tid)
    requires MtxOk(s, {}, {}) && t < |s.tcb| && s.tcb[t].tstat.Dormant? && Keeps(s, s1) && s1.objs == s.objs
    requires s1.tcb == s.tcb[t := s1.tcb[t]] && s1.tcb[t].held == [] && s1.tcb[t].tstat.Dormant?
    requires s1.tcb[t].pri == s1.tcb[t].bpri
    ensures MtxOk(s1, {}, {})
  {
    assert s.tcb[t].held == [];
  }

  lemma ExistMtx(s: State, t: Tid)
    requires MtxOk(s, {}, {}) && t < |s.tcb|
    ensures MtxOk(s.(tcb := s.tcb[t := s.tcb[t].(exs := false)], freeTcb := s.freeTcb + [t]), {}, {})
  {
    SameMtx(s, s.(tcb := s.tcb[t := s.tcb[t].(exs := false)], freeTcb := s.freeTcb + [t]), {}, {});
  }

  lemma DelCore(s: State, t: Tid)
    requires Core(s)
    ensures Core(DelTsk(s, t).0) && Calm(s, DelTsk(s, t).0) && DelTsk(s, t).0.ready == s.ready
  {
    hide ReadyOk, WaitOk, OrderOk, EvtOk, ObjOk, OwnOk, PriOk;
    if t < |s.tcb| && s.tcb[t].exs && s.tcb[t].tstat.Dormant? {
      var s1 := DelTsk(s, t).0;
      SnocNoDup(s.freeTcb, t);
      ExistMtx(s, t);
      SameLinks(s, s1.tcb, {});
      FewerWaiters(s, s1);
    }
  }

  lemma SlpTskInv(s: State, r: Tid, tmo: Tmo)
    requires Inv(s) && s.run == Some(r) && !s.intctx && s.dspflg
    ensures Inv(SlpTsk(s, r, tmo).0)
  {
    hide ReadyOk, WaitOk, OrderOk, EvtOk, ObjOk, OwnOk, PriOk;
    if s.tcb[r].wupque {
      FieldCore(s, r, s.tcb[r].(wupque := false));
      CalmInv(s, s.(tcb := s.tcb[r := s.tcb[r].(wupque := false)]));
    } else if tmo != Pol && !s.tcb[r].waifbd {
      SleepInv(s, r, Slp, tmo == After);
    }
  }

  lemma WupTskCore(s: State, t: Tid)
    requires Core(s)
    ensures Core(WupTsk(s, t).0) && Calm(s, WupTsk(s, t).0)
  {
    hide ReadyOk, WaitOk, OrderOk, EvtOk, ObjOk, OwnOk, PriOk;
    if t < |s.tcb| && s.tcb[t].exs && !s.tcb[t].tstat.Dormant? {
      if s.tcb[t].tstat.Waiting? && s.tcb[t].tstat.on == Slp {
        WakeCore(s, t, E_OK);
      } else if !s.tcb[t].wupque {
        FieldCore(s, t, s.tcb[t].(wupque := true));
      }
    }
  }

  lemma RelWaiCore(s: State, t: Tid)
    requires Core(s)
    ensures Core(RelWai(s, t).0) && Calm(s, RelWai(s, t).0)
  {
    hide ReadyOk, WaitOk, OrderOk, EvtOk, ObjOk, OwnOk, PriOk;
    if t < |s.tcb| && s.tcb[t].exs && s.tcb[t].tstat.Waiting? {
      WakeCore(s, t, E_RLWAI);
    }
  }

  /** A runnable task is taken out of its ready queue and suspended. */
  lemma SuspendCore(s: State, t: Tid)
    requires Core(s) && t < |s.tcb| && s.tcb[t].tstat.Runnable?
    ensures Core(MakeNonRunnable(s.(tcb := s.tcb[t := s.tcb[t].(tstat := Suspended)]), t))
  {
    hide ReadyOk, WaitOk, OrderOk, EvtOk, ObjOk, OwnOk;
    var s1 := MakeNonRunnable(s, t);
    var s2 := MakeNonRunnable(s.(tcb := s.tcb[t := s.tcb[t].(tstat := Suspended)]), t);
    assert s2 == s1.(tcb := s2.tcb);
    SameMtx(s, s2, {}, {});
    LeaveReady(s, t, {});
    SameLinks(s1, s2.tcb, {} + {t});
    EnterIdle(s2, t, {} + {t});
    assert {} + {t} - {t} == {};
    FewerWaiters(s, s2);
  }

  /** Suspending or resuming a waiting task changes no queue. */
  lemma ToggleCore(s: State, t: Tid, susp: bool)
    requires Core(s) && t < |s.tcb| && s.tcb[t].tstat.Waiting?
    ensures Core(s.(tcb := s.tcb[t := s.tcb[t].(tstat := Waiting(susp, s.tcb[t].tstat.on))]))
  {
    var s1 := s.(tcb := s.tcb[t := s.tcb[t].(tstat := Waiting(susp, s.tcb[t].tstat.on))]);
    ToggleLinks(s, s1, t);
    SameMtx(s, s1, {}, {});
    hide ReadyOk, WaitOk, OrderOk, EvtOk, ObjOk, OwnOk, PriOk;
    FewerWaiters(s, s1);
  }

  lemma ToggleLinks(s: State, s1: State, t: Tid)
    requires Links(s, {}) && t < |s.tcb| && s.tcb[t].tstat.Waiting? && s1 == s.(tcb := s1.tcb)
    requires |s1.tcb| == |s.tcb|
    requires s1.tcb == s.tcb[t := s.tcb[t].(tstat := s1.tcb[t].tstat)]
    requires s1.tcb[t].tstat.Waiting? && s1.tcb[t].tstat.on == s.tcb[t].tstat.on
    ensures Links(s1, {})
  {
    forall q | 0 <= q < |s.wq| && q < |s.inib| && ByPriority(s.inib[q]) ensures Sorted(s1.tcb, s.wq[q]) {
      SortedFrame(s.tcb, s1.tcb, s.wq[q]);
    }
    assert ReadyOk(s1.tcb, s1.ready, {});
    assert WaitOk(s1.tcb, s1.wq, {});
    assert EvtOk(s1.tcb, s1.evts, {});
  }

  lemma SusTskInv(s: State, r: Tid, t: Tid)
    requires Inv(s) && s.run == Some(r) && !s.intctx
    ensures Inv(SusTsk(s, r, t).0)
  {
    hide ReadyOk, WaitOk, OrderOk, EvtOk, ObjOk, OwnOk, PriOk;
    if t < |s.tcb| && (t != r || s.dspflg) && s.tcb[t].exs {
      if s.tcb[t].tstat.Runnable? {
        SuspendCore(s, t);
        SettleInv(MakeNonRunnable(s.(tcb := s.tcb[t := s.tcb[t].(tstat := Suspended)]), t));
      } else if s.tcb[t].tstat.Waiting? && !s.tcb[t].tstat.susp {
        ToggleCore(s, t, true);
        CalmInv(s, SusTsk(s, r, t).0);
      }
    }
  }

  lemma RsmTskInv(s: State, t: Tid)
    requires Inv(s) && !s.intctx
    ensures Inv(RsmTsk(s, t).0)
  {
    hide ReadyOk, WaitOk, OrderOk, EvtOk, ObjOk, OwnOk, PriOk;
    if t < |s.tcb| && s.tcb[t].exs {
      if s.tcb[t].tstat.Suspended? {
        ActiveCore(s, t);
        CalmInv(s, MakeActive(s, t));
      } else if s.tcb[t].tstat.Waiting? && s.tcb[t].tstat.susp {
        ToggleCore(s, t, false);
        CalmInv(s, RsmTsk(s, t).0);
      }
    }
  }

  /** rotate_ready_queue keeps the members of the queue. */
  lemma RotateCore(s: State, p: Pri)
    requires Core(s)
    ensures Core(RotateReadyQueue(s, p)) && Calm(s, RotateReadyQueue(s, p))
  {
    hide ReadyOk, WaitOk, OrderOk, EvtOk, ObjOk, OwnOk, PriOk;
    var s1 := RotateReadyQueue(s, p);
    if |s.ready[p]| > 1 {
      RotateReady(s.tcb, s.ready, p);
    }
    FlagsMtx(s, s1);
    FewerWaiters(s, s1);
  }

  lemma RotateReady(tcb: seq<Tcb>, ready: seq<seq<Tid>>, p: Pri)
    requires ReadyOk(tcb, ready, {}) && |ready[p]| > 1
    ensures ReadyOk(tcb, ready[p := ready[p][1..] + [ready[p][0]]], {})
  {
    var q := ready[p];
    var q1 := q[1..] + [q[0]];
    assert q == [q[0]] + q[1..];
    assert forall t :: t in q <==> t == q[0] || t in q[1..];
    assert forall t :: t in q1 <==> t in q;
    SnocNoDup(q[1..], q[0]);
  }

  lemma FlagsCore(s: State, s1: State)
    requires Core(s) && s1 == s.(ipmflg := s1.ipmflg, disdsp := s1.disdsp, dspflg := s1.dspflg)
    requires FlagsOk(s1)
    ensures Core(s1)
  {
    hide ReadyOk, WaitOk, OrderOk, EvtOk, ObjOk, OwnOk, PriOk;
    FlagsMtx(s, s1);
    FewerWaiters(s, s1);
  }

  /** dis_dsp, ena_dsp and chg_ipm: a pending dispatch is made up for as soon as it
      is possible again. */
  lemma FlagOpsInv(s: State, enaall: bool)
    requires Inv(s) && !s.intctx
    ensures Inv(DisDsp(s)) && Inv(EnaDsp(s)) && Inv(ChgIpm(s, enaall))
  {
    hide ReadyOk, WaitOk, OrderOk, EvtOk, ObjOk, OwnOk, PriOk;
    FlagsCore(s, DisDsp(s));
    var on := s.(disdsp := false, dspflg := s.ipmflg);
    FlagsCore(s, on);
    if s.ipmflg {
      SettleInv(on);
    }
    var all := s.(ipmflg := true, dspflg := !s.disdsp);
    FlagsCore(s, all);
    if !s.disdsp {
      SettleInv(all);
    }
    FlagsCore(s, s.(ipmflg := false, dspflg := false));
  }
}
