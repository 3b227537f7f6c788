/** The immediate ceiling theorem: every call keeps the order of holders, so that a
    call to lock a ceiling mutex never blocks. */
module KernelCeilingRun {
  import opened Lists
  import opened KernelSpec
  import opened KernelInv
  import opened KernelKeeps
  import opened KernelMutex
  import opened KernelSteps
  import opened KernelTasks
  import opened KernelSync
  import opened KernelData
  import opened KernelRun
  import opened KernelCeiling

  ghost predicate Order(s: State) {
    HoldersAhead(s.inib, s.tcb, s.ready) && NoCeilWait(s) && s.dspflg
  }

  ghost predicate CeilInv(s: State) {
    Inv(s) && Order(s)
  }

  /** Base priorities stay, no queue is rotated, dispatching stays enabled. */
  predicate Allowed(op: Op) {
    && !(op.Manage? && (op.m.OpChgPri? || op.m.OpRotRdq? || op.m.OpDisDsp? || op.m.OpChgIpm?))
    && !(op.Int? && op.i.OpIRotRdq?)
  }

  /** A running task that may lock a ceiling mutex finds it free or its own. */
  lemma LockFindsFree(s: State, r: Tid, m: nat)
    requires CeilInv(s) && IdleFree(s, {}) && s.run == Some(r) && !s.intctx
    requires IsCeil(s.inib, m) && Ceil(s.inib, m) <= s.tcb[r].bpri
    ensures s.objs[m].loctsk == None || s.objs[m].loctsk == Some(r)
  {
    if s.objs[m].loctsk.Some? && s.objs[m].loctsk != Some(r) {
      var h := s.objs[m].loctsk.value;
      assert m in s.tcb[h].held;
      QueuedIff(s.tcb, s.ready, {});
      assert Queued(s.tcb, s.ready, h) && Queued(s.tcb, s.ready, r);
      assert Ahead(s.tcb, s.ready, h, r);
      FirstAhead(s.tcb, s.ready, r, h, {});
      AheadOnce(s.tcb, s.ready, h, r);
      assert false;
    }
  }

  // ---- calls -----------------------------------------------------------------------

  /** A task leaves its ready queue and nothing else the order sees changes. */
  lemma LeaveKeepsOrder(s: State, s1: State, r: Tid)
    requires Links(s, {}) && Order(s) && r < |s.tcb| && s.tcb[r].tstat.Runnable? && Keeps(s, s1)
    requires s1.ready == MakeNonRunnable(s, r).ready && s1.dspflg == s.dspflg
    requires forall t :: 0 <= t < |s.tcb| ==>
      s1.tcb[t].pri == s.tcb[t].pri && s1.tcb[t].bpri == s.tcb[t].bpri && s1.tcb[t].held == s.tcb[t].held
    requires forall q :: 0 <= q < |s.inib| && IsCeil(s.inib, q) ==> s1.wq[q] == s.wq[q]
    ensures Order(s1)
  {
    LeaveOrder(s.inib, s.tcb, s.ready, r, {});
    LeaveReady(s, r, {});
    SameQueues(s.inib, s.tcb, s1.tcb, s1.ready, {} + {r});
  }

  lemma BlockOrder(s: State, r: Tid, q: nat, tmo: bool)
    requires Links(s, {}) && Order(s) && r < |s.tcb| && s.tcb[r].tstat.Runnable? && q < |s.wq| && !IsCeil(s.inib, q)
    ensures Order(WobjMakeWait(s, r, q, tmo))
  {
    hide ReadyOk, WaitOk, OrderOk, EvtOk, WobjMakeWait;
    JoinEffect(s, r, q, tmo);
    var s1 := WobjMakeWait(s, r, q, tmo);
    LeaveKeepsOrder(s, s1, r);
  }

  lemma SleepOrder(s: State, r: Tid, on: WaitOn, tmo: bool)
    requires Links(s, {}) && Order(s) && r < |s.tcb| && s.tcb[r].tstat.Runnable?
    ensures Order(MakeWait(s, r, on, tmo))
  {
    LeaveKeepsOrder(s, MakeWait(s, r, on, tmo), r);
  }

  lemma WakeOrder(s: State, t: Tid, er: Er)
    requires Core(s) && Safe(s, {}) && s.dspflg && t < |s.tcb| && s.tcb[t].tstat.Waiting?
    ensures Order(Wake(s, t, er))
  {
    hide ReadyOk, WaitOk, OrderOk, EvtOk, OwnOk, PriOk, ObjOk;
    WakeSafe(s, t, er, {}, {});
  }

  lemma FieldOrder(s: State, t: Tid, v: Tcb)
    requires Links(s, {}) && Order(s) && t < |s.tcb|
    requires v.pri == s.tcb[t].pri && v.bpri == s.tcb[t].bpri && v.held == s.tcb[t].held
    ensures Order(s.(tcb := s.tcb[t := v]))
  {
    SameQueues(s.inib, s.tcb, s.tcb[t := v], s.ready, {});
  }

  lemma LocMtxOrder(s: State, r: Tid, m: nat, tmo: Tmo)
    requires CeilInv(s) && IdleFree(s, {}) && s.run == Some(r) && !s.intctx
    ensures Order(LocMtx(s, r, m, tmo).0)
    ensures IsCeil(s.inib, m) ==> LocMtx(s, r, m, tmo).1 in {E_OK, E_ILUSE, E_OBJ}
  {
    if IsMtx(s, m) && CeilOk(s.inib, s.tcb[r].bpri, m) {
      if IsCeil(s.inib, m) {
        LockFindsFree(s, r, m);
      }
      if s.objs[m].loctsk == None {
        AcquireSafe(s, r, m);
        AcquireLinks(s, r, m);
      } else if s.objs[m].loctsk != Some(r) && tmo != Pol && !s.tcb[r].waifbd {
        BlockOrder(s, r, m, tmo == After);
      }
    }
  }

  lemma UnlMtxOrder(s: State, r: Tid, m: nat)
    requires CeilInv(s) && IdleFree(s, {}) && s.run == Some(r)
    ensures Order(UnlMtx(s, r, m).0)
  {
    hide ReadyOk, WaitOk, OrderOk, EvtOk, OwnOk, PriOk, ObjOk;
    if IsMtx(s, m) && s.objs[m].loctsk == Some(r) {
      UnholdGood(s, r, m);
      UnholdSafe(s, r, m);
      ReleaseGood(Unhold(s, r, m), m, {});
      ReleaseSafe(Unhold(s, r, m), m, {});
    }
  }

  lemma IniMtxOrder(s: State, m: nat)
    requires CeilInv(s) && IdleFree(s, {})
    ensures Order(IniMtx(s, m).0)
  {
    hide ReadyOk, WaitOk, OrderOk, EvtOk, OwnOk, PriOk, ObjOk, WakeAll;
    if IsMtx(s, m) {
      WakeAllCore(s, m);
      QueueSafe(s, m);
      var s1 := WakeAll(s, s.wq[m]);
      StripCore(s1, m);
      if s1.objs[m].loctsk.Some? {
        var t := s1.objs[m].loctsk.value;
        UnholdSafe(s1, t, m);
        NobodySafe(Unhold(s1, t, m), m, {});
      }
    }
  }

  lemma ExtTskOrder(s: State, r: Tid)
    requires CeilInv(s) && IdleFree(s, {}) && s.run == Some(r)
    ensures Order(ExtTsk(s, r).0)
  {
    hide ReadyOk, WaitOk, OrderOk, EvtOk, OwnOk, PriOk, ObjOk, Finish;
    var s1 := s.(disdsp := false, ipmflg := true, dspflg := true);
    FewerWaiters(s, s1);
    FlagsMtx(s, s1);
    assert Safe(s1, {});
    DetachGood(s1, r);
    DetachSafe(s1, r);
    assert Detach(s1, r) == MakeNonRunnable(s1, r);
    FinishGood(MakeNonRunnable(s1, r), r);
    FinishSafe(MakeNonRunnable(s1, r), r);
  }

  lemma TerTskOrder(s: State, r: Tid, t: Tid)
    requires CeilInv(s) && IdleFree(s, {}) && s.run == Some(r)
    ensures Order(TerTsk(s, r, t).0)
  {
    hide ReadyOk, WaitOk, OrderOk, EvtOk, OwnOk, PriOk, ObjOk, Finish;
    if t < |s.tcb| && t != r && s.tcb[t].exs && !s.tcb[t].tstat.Dormant? {
      DetachGood(s, t);
      DetachSafe(s, t);
      FinishGood(Detach(s, t), t);
      FinishSafe(Detach(s, t), t);
    }
  }

  /** Dormant tasks come and go without touching the order. */
  lemma IdleOrder(s: State, s1: State, t: Tid)
    requires Links(s, {}) && Order(s) && t < |s.tcb| && s.tcb[t].tstat.Dormant? && Keeps(s, s1)
    requires s1.tcb == s.tcb[t := s1.tcb[t]] && s1.ready == s.ready && s1.wq == s.wq && s1.dspflg == s.dspflg
    ensures Order(s1)
  {
    SameQueues(s.inib, s.tcb, s1.tcb, s.ready, {});
  }

  lemma ActTskOrder(s: State, t: Tid)
    requires CeilInv(s) && IdleFree(s, {})
    ensures Order(ActTsk(s, t).0)
  {
    if t < |s.tcb| && s.tcb[t].exs {
      if s.tcb[t].tstat.Dormant? {
        ActiveSafe(s, t);
      } else {
        FieldOrder(s, t, s.tcb[t].(actque := true));
      }
    }
  }

  lemma AcreOrder(s: State, ipri: Pri, t: Tid)
    requires CeilInv(s)
    ensures Order(AcreTsk(s, ipri, false).0) && Order(DelTsk(s, t).0)
  {
    if s.freeTcb != [] {
      var f := s.freeTcb[0];
      assert f in s.freeTcb;
      IdleOrder(s, AcreTsk(s, ipri, false).0, f);
    }
    if t < |s.tcb| && s.tcb[t].exs && s.tcb[t].tstat.Dormant? {
      IdleOrder(s, DelTsk(s, t).0, t);
    }
  }

  lemma AcreActOrder(s: State, ipri: Pri)
    requires CeilInv(s) && IdleFree(s, {})
    ensures Order(AcreTsk(s, ipri, true).0)
  {
    hide ReadyOk, WaitOk, OrderOk, EvtOk, OwnOk, PriOk, ObjOk, AcreTsk, MakeActive;
    if s.freeTcb != [] {
      assert s.freeTcb[0] in s.freeTcb;
      AcreOrder(s, ipri, 0);
      AcreCore(s, ipri);
      AcreForm(s, ipri);
      NewIdleFree(s, AcreTsk(s, ipri, false).0, s.freeTcb[0]);
      ActiveSafe(AcreTsk(s, ipri, false).0, s.freeTcb[0]);
      SameFlag(AcreTsk(s, ipri, false).0, s.freeTcb[0]);
    } else {
      NoTask(s, ipri);
    }
  }

  lemma NoTask(s: State, ipri: Pri)
    requires Shape(s) && s.freeTcb == []
    ensures AcreTsk(s, ipri, true).0 == s
  {
  }

  lemma SameFlag(s: State, t: Tid)
    requires Shape(s) && t < |s.tcb|
    ensures MakeActive(s, t).dspflg == s.dspflg
  {
  }

  lemma NewIdleFree(s: State, s1: State, t: Tid)
    requires IdleFree(s, {}) && |s1.tcb| == |s.tcb| && t < |s.tcb| && s1.inib == s.inib && s1.tcb[t].held == []
    requires forall u :: 0 <= u < |s.tcb| && u != t ==> s1.tcb[u] == s.tcb[u]
    ensures IdleFree(s1, {})
  {
  }

  lemma SuspendOrder(s: State, r: Tid, t: Tid)
    requires CeilInv(s) && IdleFree(s, {}) && s.run == Some(r)
    ensures Order(SusTsk(s, r, t).0)
  {
    hide ReadyOk, WaitOk, OrderOk, EvtOk, OwnOk, PriOk, ObjOk, HoldersAhead;
    if t < |s.tcb| && s.tcb[t].exs {
      if s.tcb[t].tstat.Runnable? {
        LeaveKeepsOrder(s, MakeNonRunnable(s.(tcb := s.tcb[t := s.tcb[t].(tstat := Suspended)]), t), t);
      } else if s.tcb[t].tstat.Waiting? {
        FieldOrder(s, t, s.tcb[t].(tstat := Waiting(true, s.tcb[t].tstat.on)));
      }
    }
  }

  lemma ResumeOrder(s: State, t: Tid)
    requires CeilInv(s) && IdleFree(s, {})
    ensures Order(RsmTsk(s, t).0)
  {
    hide ReadyOk, WaitOk, OrderOk, EvtOk, OwnOk, PriOk, ObjOk, HoldersAhead;
    if t < |s.tcb| && s.tcb[t].exs {
      if s.tcb[t].tstat.Suspended? {
        ActiveSafe(s, t);
      } else if s.tcb[t].tstat.Waiting? {
        FieldOrder(s, t, s.tcb[t].(tstat := Waiting(false, s.tcb[t].tstat.on)));
      }
    }
  }

  lemma SlpOrder(s: State, r: Tid, tmo: Tmo)
    requires CeilInv(s) && s.run == Some(r)
    ensures Order(SlpTsk(s, r, tmo).0) && Order(DlyTsk(s, r).0)
  {
    hide ReadyOk, WaitOk, OrderOk, EvtOk, OwnOk, PriOk, ObjOk, HoldersAhead, MakeWait;
    FieldOrder(s, r, s.tcb[r].(wupque := false));
    SleepOrder(s, r, Slp, tmo == After);
    SleepOrder(s, r, Dly, true);
  }

  lemma ForbidOrder(s: State, t: Tid, texmask: bool)
    requires CeilInv(s)
    ensures Order(DisWai(s, t, texmask).0) && Order(EnaWai(s, t).0)
  {
    hide ReadyOk, WaitOk, OrderOk, EvtOk, OwnOk, PriOk, ObjOk, HoldersAhead;
    if t < |s.tcb| {
      FieldOrder(s, t, s.tcb[t].(waifbd := true));
      FieldOrder(s, t, s.tcb[t].(waifbd := false));
    }
  }

  lemma EnableOrder(s: State)
    requires Order(s)
    ensures Order(EnaDsp(s))
  {
    hide HoldersAhead;
  }

  lemma ManageOrder(s: State, r: Tid, op: ManageOp)
    requires CeilInv(s) && IdleFree(s, {}) && s.run == Some(r) && !s.intctx && Allowed(Manage(op))
    ensures Order(ManageStep(s, r, op).0)
  {
    hide ReadyOk, WaitOk, OrderOk, EvtOk, OwnOk, PriOk, ObjOk, ActTsk, ExtTsk, TerTsk, ChgPri, AcreTsk, DelTsk,
         SlpTsk, DlyTsk, WupTsk, RelWai, SusTsk, RsmTsk, DisWai, EnaWai, EnaDsp, Settle, Order;
    match op
    case OpActTsk(t) => ActTskOrder(s, t); SettleOrder(ActTsk(s, t).0);
    case OpExtTsk => ExtTskOrder(s, r);
    case OpTerTsk(t) => TerTskOrder(s, r, t);
    case OpAcreTsk(p, act) => AcreOrder(s, p, 0); AcreActOrder(s, p);
    case OpDelTsk(t) => AcreOrder(s, 0, t);
    case OpSlpTsk(tmo) => SlpOrder(s, r, tmo);
    case OpDlyTsk => SlpOrder(s, r, After);
    case OpWupTsk(t) => WupOrder(s, t, E_OK); SettleOrder(WupTsk(s, t).0);
    case OpRelWai(t) => WupOrder(s, t, E_RLWAI); SettleOrder(RelWai(s, t).0);
    case OpSusTsk(t) => SuspendOrder(s, r, t);
    case OpRsmTsk(t) => ResumeOrder(s, t);
    case OpDisWai(t, texmask) => ForbidOrder(s, t, texmask);
    case OpEnaWai(t) => ForbidOrder(s, t, false);
    case OpEnaDsp => EnableOrder(s);
  }

  lemma WupOrder(s: State, t: Tid, er: Er)
    requires CeilInv(s) && IdleFree(s, {})
    ensures Order(WupTsk(s, t).0) && Order(RelWai(s, t).0)
    ensures t < |s.tcb| && s.tcb[t].tstat.Waiting? ==> Order(Wake(s, t, er))
  {
    hide ReadyOk, WaitOk, OrderOk, EvtOk, OwnOk, PriOk, ObjOk;
    if t < |s.tcb| {
      if s.tcb[t].tstat.Waiting? {
        WakeOrder(s, t, er);
        WakeOrder(s, t, E_OK);
        WakeOrder(s, t, E_RLWAI);
      }
      FieldOrder(s, t, s.tcb[t].(wupque := true));
    }
  }

  // ---- synchronization objects ------------------------------------------------------

  lemma HeadOrder(s: State, q: nat)
    requires Core(s) && Safe(s, {}) && s.dspflg && q < |s.wq| && s.wq[q] != []
    ensures Order(WakeHead(s, q))
  {
    WakeHeadSafe(s, q);
  }

  lemma IniOrder(s: State, q: nat)
    requires Core(s) && Safe(s, {}) && s.dspflg && q < |s.wq|
    ensures Core(WakeAll(s, s.wq[q])) && Safe(WakeAll(s, s.wq[q]), {}) && WakeAll(s, s.wq[q]).dspflg
  {
    hide ReadyOk, WaitOk, OrderOk, EvtOk, OwnOk, PriOk, ObjOk;
    WakeAllCore(s, q);
    QueueSafe(s, q);
  }

  lemma {:induction false} WalkSafe(s: State, o: nat, ts: seq<Tid>)
    requires Good(s, {}, {}) && IsFlg(s, o) && Safe(s, {}) && s.dspflg
    ensures Order(FlgWalk(s, o, ts))
    decreases |ts|
  {
    hide ReadyOk, WaitOk, OrderOk, EvtOk, OwnOk, PriOk, FlgCond, Wake;
    if ts != [] && ts[0] < |s.tcb| && s.tcb[ts[0]].tstat.Waiting? {
      var t := ts[0];
      var v := s.tcb[t];
      var ptn := s.objs[o].ptn;
      if FlgCond(ptn, v.waiptn, v.orw) {
        var s1 := s.(tcb := s.tcb[t := v.(flgptn := ptn)],
                     objs := s.objs[o := FlgCb(if s.inib[o].clr then 0 else ptn)]);
        HitGood(s, o, t);
        FieldSafe(s, s1, {});
        WakeSafe(s1, t, E_OK, {}, {});
        WakeGood(s1, t, E_OK, {}, {});
        WakeEffect(s1, t, E_OK, {});
        if !s.inib[o].clr {
          WalkSafe(Wake(s1, t, E_OK), o, ts[1..]);
        }
      } else {
        WalkSafe(s, o, ts[1..]);
      }
    }
  }

  lemma SetFlgOrder(s: State, o: nat, setptn: bv32)
    requires CeilInv(s) && IdleFree(s, {})
    ensures Order(SetFlg(s, o, setptn).0)
  {
    hide ReadyOk, WaitOk, OrderOk, EvtOk, OwnOk, PriOk, ObjOk, FlgCond;
    if IsFlg(s, o) {
      var s1 := s.(objs := s.objs[o := FlgCb(SetBits(s.objs[o].ptn, setptn))]);
      ObjMtx(s, o, s1.objs[o]);
      WalkSafe(s1, o, s1.wq[o]);
    }
  }

  lemma SigSemOrder(s: State, o: nat)
    requires CeilInv(s) && IdleFree(s, {})
    ensures Order(SigSem(s, o).0)
  {
    hide ReadyOk, WaitOk, OrderOk, EvtOk, OwnOk, PriOk, ObjOk;
    if IsSem(s, o) && s.wq[o] != [] {
      HeadOrder(s, o);
    }
  }

  lemma WaiFlgOrder(s: State, r: Tid, o: nat, ptn: bv32, orw: bool, tmo: Tmo)
    requires CeilInv(s) && IdleFree(s, {}) && s.run == Some(r)
    ensures Order(WaiFlg(s, r, o, ptn, orw, tmo).0)
  {
    hide ReadyOk, WaitOk, OrderOk, EvtOk, OwnOk, PriOk, ObjOk, FlgCond, WobjMakeWait;
    if IsFlg(s, o) {
      PatternCore(s, r, ptn, orw);
      FieldOrder(s, r, s.tcb[r].(waiptn := ptn, orw := orw));
      FieldOrder(s, r, s.tcb[r].(flgptn := s.objs[o].ptn));
      BlockOrder(s.(tcb := s.tcb[r := s.tcb[r].(waiptn := ptn, orw := orw)]), r, o, tmo == After);
    }
  }

  lemma WaiSemOrder(s: State, r: Tid, o: nat, tmo: Tmo)
    requires CeilInv(s) && s.run == Some(r)
    ensures Order(WaiSem(s, r, o, tmo).0)
  {
    hide ReadyOk, WaitOk, OrderOk, EvtOk, OwnOk, PriOk, ObjOk, HoldersAhead, WobjMakeWait;
    if IsSem(s, o) {
      BlockOrder(s, r, o, tmo == After);
    }
  }

  /** The initialization of an object that is not a mutex. */
  lemma IniObjOrder(s: State, o: nat, cb: Cb)
    requires CeilInv(s) && IdleFree(s, {}) && o < |s.inib| && SameKind(s.inib[o], cb)
    ensures var s1 := WakeAll(s, s.wq[o]); Shape(s1) && Order(Settle(s1.(objs := s1.objs[o := cb])))
  {
    hide ReadyOk, WaitOk, OrderOk, EvtOk, OwnOk, PriOk, ObjOk, HoldersAhead, WakeAll;
    IniOrder(s, o);
    CbOrder(WakeAll(s, s.wq[o]), o, cb);
  }

  lemma CbOrder(s: State, o: nat, cb: Cb)
    requires Shape(s) && Order(s) && o < |s.inib| && SameKind(s.inib[o], cb)
    ensures Order(Settle(s.(objs := s.objs[o := cb])))
  {
    hide HoldersAhead;
  }

  lemma ClrFlgOrder(s: State, o: nat, ptn: bv32)
    requires Shape(s) && Order(s)
    ensures Order(ClrFlg(s, o, ptn).0)
  {
    hide HoldersAhead, ClearBits;
  }

  lemma SettleOrder(s: State)
    requires Order(s)
    ensures Order(Settle(s))
  {
    hide HoldersAhead;
  }

  lemma SyncOrder(s: State, r: Tid, op: SyncOp)
    requires CeilInv(s) && IdleFree(s, {}) && s.run == Some(r) && !s.intctx
    ensures Order(SyncStep(s, r, op).0)
  {
    hide ReadyOk, WaitOk, OrderOk, EvtOk, OwnOk, PriOk, ObjOk, FlgCond,
         LocMtx, UnlMtx, IniMtx, SigSem, WaiSem, SetFlg, ClrFlg, WaiFlg, WakeAll, Settle, Order;
    match op
    case OpLocMtx(o, tmo) => LocMtxOrder(s, r, o, tmo);
    case OpPlocMtx(o) => LocMtxOrder(s, r, o, Pol);
    case OpUnlMtx(o) => UnlMtxOrder(s, r, o);
    case OpIniMtx(o) => IniMtxOrder(s, o);
    case OpSigSem(o) => SigSemOrder(s, o); SettleOrder(SigSem(s, o).0);
    case OpWaiSem(o, tmo) => WaiSemOrder(s, r, o, tmo);
    case OpPolSem(o) => WaiSemOrder(s, r, o, Pol);
    case OpIniSem(o) => if IsSem(s, o) { IniObjOrder(s, o, SemCb(s.inib[o].isemcnt)); }
    case OpSetFlg(o, ptn) => SetFlgOrder(s, o, ptn); SettleOrder(SetFlg(s, o, ptn).0);
    case OpClrFlg(o, ptn) => ClrFlgOrder(s, o, ptn);
    case OpWaiFlg(o, ptn, orw, tmo) => WaiFlgOrder(s, r, o, ptn, orw, tmo);
    case OpPolFlg(o, ptn, orw) => WaiFlgOrder(s, r, o, ptn, orw, Pol);
    case OpIniFlg(o) => if IsFlg(s, o) { IniObjOrder(s, o, FlgCb(s.inib[o].iflgptn)); }
  }

  lemma HandOverOrder(s: State, o: nat, it: Item)
    requires CeilInv(s) && IdleFree(s, {}) && IsDtq(s, o) && s.wq[RcvQ(s, o)] != []
    ensures Order(HandOver(s, o, it))
  {
    hide ReadyOk, WaitOk, OrderOk, EvtOk, OwnOk, PriOk, ObjOk;
    var t := s.wq[RcvQ(s, o)][0];
    HeadWaits(s, RcvQ(s, o));
    ItemCore(s, t, it);
    FieldSafe(s, SetItem(s, t, it), {});
    HeadOrder(SetItem(s, t, it), RcvQ(s, o));
  }

  lemma SendOrder(s: State, o: nat, it: Item)
    requires CeilInv(s) && IdleFree(s, {}) && IsDtq(s, o)
    ensures SendData(s, o, it).Some? ==> Order(SendData(s, o, it).value)
    ensures Order(FsndDtq(s, o, it).0)
  {
    hide ReadyOk, WaitOk, OrderOk, EvtOk, OwnOk, PriOk, ObjOk;
    if s.wq[RcvQ(s, o)] != [] {
      HandOverOrder(s, o, it);
    }
  }

  lemma ReceiveOrder(s: State, o: nat)
    requires CeilInv(s) && IdleFree(s, {}) && IsDtq(s, o)
    ensures ReceiveData(s, o).Some? ==> Order(ReceiveData(s, o).value.0) && Links(ReceiveData(s, o).value.0, {})
  {
    hide ReadyOk, WaitOk, OrderOk, EvtOk, OwnOk, PriOk, AddItem;
    ReceiveCore(s, o);
    assert ObjOk(s, o);
    if s.wq[o] != [] {
      HeadWaits(s, o);
      if s.objs[o].items != [] {
        var items := s.objs[o].items;
        AddItemOk(s.inib[o].prio, items[1..], s.tcb[s.wq[o][0]].item);
        var items1 := AddItem(s.inib[o].prio, items[1..], s.tcb[s.wq[o][0]].item);
        ObjCore(s, o, DtqCb(items1));
        HeadOrder(SetItems(s, o, items1), o);
      } else {
        HeadOrder(s, o);
      }
    }
  }

  lemma RelMpfOrder(s: State, o: nat, b: nat)
    requires CeilInv(s) && IdleFree(s, {})
    ensures Order(RelMpf(s, o, b).0)
  {
    hide ReadyOk, WaitOk, OrderOk, EvtOk, OwnOk, PriOk, ObjOk;
    if IsMpf(s, o) && s.wq[o] != [] {
      var t := s.wq[o][0];
      HeadWaits(s, o);
      ItemCore(s, t, Item(b, 0));
      FieldSafe(s, SetItem(s, t, Item(b, 0)), {});
      HeadOrder(SetItem(s, t, Item(b, 0)), o);
    }
  }

  lemma RcvDtqOrder(s: State, r: Tid, o: nat, tmo: Tmo)
    requires CeilInv(s) && IdleFree(s, {}) && s.run == Some(r)
    ensures Order(RcvDtq(s, r, o, tmo).0)
  {
    hide ReadyOk, WaitOk, OrderOk, EvtOk, OwnOk, PriOk, ObjOk, WobjMakeWait, ReceiveData;
    if IsDtq(s, o) {
      ReceiveOrder(s, o);
      ReceiveCore(s, o);
      BlockOrder(s, r, RcvQ(s, o), tmo == After);
      if ReceiveData(s, o).Some? {
        var p := ReceiveData(s, o).value;
        FieldOrder(p.0, r, p.0.tcb[r].(item := p.1));
      }
    }
  }

  lemma IniDtqOrder(s: State, o: nat)
    requires CeilInv(s) && IdleFree(s, {})
    ensures Order(IniDtq(s, o).0)
  {
    hide ReadyOk, WaitOk, OrderOk, EvtOk, OwnOk, PriOk, ObjOk, HoldersAhead, WakeAll;
    if IsDtq(s, o) {
      IniOrder(s, o);
      IniOrder(WakeAll(s, s.wq[o]), RcvQ(s, o));
    }
  }

  lemma DataOrder(s: State, r: Tid, op: DataOp)
    requires CeilInv(s) && IdleFree(s, {}) && s.run == Some(r) && !s.intctx
    ensures Order(DataStep(s, r, op).0)
  {
    hide ReadyOk, WaitOk, OrderOk, EvtOk, OwnOk, PriOk, ObjOk, RelMpf, SndDtq, FsndDtq, RcvDtq, IniDtq, GetMpf,
         WakeAll, Settle, Order;
    match op
    case OpSndDtq(o, it, tmo) => SndDtqOrder(s, r, o, it, tmo);
    case OpPsndDtq(o, it) => SndDtqOrder(s, r, o, it, Pol);
    case OpFsndDtq(o, it) => FsndOrder(s, o, it); SettleOrder(FsndDtq(s, o, it).0);
    case OpRcvDtq(o, tmo) => RcvDtqOrder(s, r, o, tmo);
    case OpPrcvDtq(o) => RcvDtqOrder(s, r, o, Pol);
    case OpIniDtq(o) => IniDtqOrder(s, o);
    case OpGetMpf(o, tmo) => GetMpfOrder(s, r, o, tmo);
    case OpPgetMpf(o) => GetMpfOrder(s, r, o, Pol);
    case OpRelMpf(o, b) => RelMpfOrder(s, o, b);
    case OpIniMpf(o) => if IsMpf(s, o) { IniObjOrder(s, o, MpfCb(NewPool(s.inib[o].blkcnt))); }
  }

  lemma FsndOrder(s: State, o: nat, it: Item)
    requires CeilInv(s) && IdleFree(s, {})
    ensures Order(FsndDtq(s, o, it).0)
  {
    if IsDtq(s, o) {
      SendOrder(s, o, it);
    }
  }

  lemma SndDtqOrder(s: State, r: Tid, o: nat, it: Item, tmo: Tmo)
    requires CeilInv(s) && IdleFree(s, {}) && s.run == Some(r)
    ensures Order(SndDtq(s, r, o, it, tmo).0)
  {
    hide ReadyOk, WaitOk, OrderOk, EvtOk, OwnOk, PriOk, ObjOk, WobjMakeWait, SendData;
    if IsDtq(s, o) {
      SendOrder(s, o, it);
      ItemCore(s, r, it);
      FieldOrder(s, r, s.tcb[r].(item := it));
      BlockOrder(SetItem(s, r, it), r, o, tmo == After);
    }
  }

  lemma GetMpfOrder(s: State, r: Tid, o: nat, tmo: Tmo)
    requires CeilInv(s) && IdleFree(s, {}) && s.run == Some(r)
    ensures Order(GetMpf(s, r, o, tmo).0)
  {
    hide ReadyOk, WaitOk, OrderOk, EvtOk, OwnOk, PriOk, ObjOk, WobjMakeWait, GetBlock, NextBlock;
    if IsMpf(s, o) {
      BlockOrder(s, r, o, tmo == After);
      if s.objs[o].pool.fblkcnt > 0 {
        var p := s.objs[o].pool;
        FieldOrder(s, r, s.tcb[r].(item := Item(NextBlock(p), 0)));
      }
    }
  }

  lemma IntOrder(s: State, op: IntOp)
    requires CeilInv(s) && IdleFree(s, {}) && !op.OpIRotRdq?
    ensures Order(IntStep(s, op).0)
  {
    hide ReadyOk, WaitOk, OrderOk, EvtOk, OwnOk, PriOk, ObjOk,
         ActTsk, WupTsk, RelWai, SigSem, SetFlg, FsndDtq, SendData;
    match op
    case OpIntExit =>
    case OpIActTsk(t) => ActTskOrder(s, t);
    case OpIWupTsk(t) => WupOrder(s, t, E_OK);
    case OpIRelWai(t) => WupOrder(s, t, E_OK);
    case OpISigSem(o) => SigSemOrder(s, o);
    case OpISetFlg(o, ptn) => SetFlgOrder(s, o, ptn);
    case OpIpsndDtq(o, it) => if IsDtq(s, o) { SendOrder(s, o, it); }
    case OpIfsndDtq(o, it) => FsndOrder(s, o, it);
    case OpTimeout(t) => WupOrder(s, t, E_OK); WupOrder(s, t, E_TMOUT);
  }

  /** Every allowed call keeps the order of the holders of ceiling mutexes. */
  lemma StepCeil(s: State, op: Op)
    requires CeilInv(s) && IdleFree(s, {}) && Allowed(op) && Admits(s, op)
    ensures CeilInv(Step(s, op).0)
  {
    hide ReadyOk, WaitOk, OrderOk, EvtOk, OwnOk, PriOk, ObjOk, IntStep, ManageStep, SyncStep, DataStep;
    StepInv(s, op);
    if op.Int? {
      if s.intctx {
        IntOrder(s, op.i);
      }
    } else if !op.IntEnter? && !s.intctx && s.run.Some? && s.run.value < |s.tcb| {
      match op
      case Manage(m) => ManageOrder(s, s.run.value, m);
      case Sync(y) => SyncOrder(s, s.run.value, y);
      case Data(d) => DataOrder(s, s.run.value, d);
    }
  }

  // ---- whole runs ----------------------------------------------------------------------

  /** The run obeys the rules of the protocol: in every state no holder of a ceiling
      mutex waits or is suspended, and every call is allowed. */
  ghost predicate Obeys(s: State, ops: seq<Op>)
    requires Inv(s)
    decreases |ops|
  {
    && IdleFree(s, {})
    && (ops != [] ==>
          && Allowed(ops[0])
          && (DoInv(s, ops[0]); Obeys(Do(s, ops[0]).0, ops[1..])))
  }

  lemma {:induction false} RunCeil(s: State, ops: seq<Op>)
    requires CeilInv(s) && Obeys(s, ops)
    ensures CeilInv(Run(s, ops)) && IdleFree(Run(s, ops), {})
    decreases |ops|
  {
    hide Order, IdleFree, Step, Admits;
    if ops != [] {
      DoInv(s, ops[0]);
      if Admits(s, ops[0]) {
        StepCeil(s, ops[0]);
      }
      RunCeil(Do(s, ops[0]).0, ops[1..]);
    }
  }

  /** Nobody holds anything at start-up. */
  lemma BootCeil(cfg: seq<TaskCfg>, inib: seq<Inib>, acts: seq<Tid>)
    requires CfgOk(cfg, inib, acts)
    ensures CeilInv(Boot(cfg, inib, acts))
  {
    BootInv(cfg, inib, acts);
    BootBare(Blank(cfg, inib), acts);
  }

  lemma {:induction false} BootBare(s: State, ts: seq<Tid>)
    requires Shape(s) && s.dspflg
    requires forall t :: 0 <= t < |s.tcb| ==> s.tcb[t].held == []
    requires forall q :: 0 <= q < |s.wq| ==> s.wq[q] == []
    ensures Order(StartAll(s, ts))
    decreases |ts|
  {
    if ts != [] && ts[0] < |s.tcb| {
      BootBare(MakeActive(s, ts[0]), ts[1..]);
    }
  }

  ghost function Start(cfg: seq<TaskCfg>, inib: seq<Inib>, acts: seq<Tid>): (s: State)
    requires CfgOk(cfg, inib, acts)
    ensures Inv(s)
  {
    BootInv(cfg, inib, acts);
    Boot(cfg, inib, acts)
  }

  /** The immediate ceiling theorem.  After any run from start-up that obeys the
      protocol, locking a ceiling mutex does not block: it succeeds, or it is an error
      of the caller (its base priority is above the ceiling, or it holds the mutex). */
  lemma ImmediateCeiling(cfg: seq<TaskCfg>, inib: seq<Inib>, acts: seq<Tid>, ops: seq<Op>, m: nat, tmo: Tmo)
    requires CfgOk(cfg, inib, acts)
    requires Obeys(Start(cfg, inib, acts), ops)
    ensures var s := Run(Start(cfg, inib, acts), ops);
      !s.intctx && s.run.Some? && IsCeil(s.inib, m) ==>
        LocMtx(s, s.run.value, m, tmo).1 in {E_OK, E_ILUSE, E_OBJ}
  {
    hide ReadyOk, WaitOk, OrderOk, EvtOk, OwnOk, PriOk, ObjOk, Order, IdleFree, LocMtx;
    BootCeil(cfg, inib, acts);
    RunCeil(Start(cfg, inib, acts), ops);
    var s := Run(Start(cfg, inib, acts), ops);
    if !s.intctx && s.run.Some? && IsCeil(s.inib, m) {
      LocMtxOrder(s, s.run.value, m, tmo);
    }
  }
}
