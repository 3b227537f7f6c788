/** Whole runs of the kernel: any sequence of service calls and interrupts. */
module KernelRun {
  import opened Lists
  import opened KernelSpec
  import opened KernelInv
  import opened KernelKeeps
  import opened KernelMutex
  import opened KernelSteps
  import opened KernelTasks
  import opened KernelSync
  import opened KernelData

  lemma TimeoutCore(s: State, t: Tid)
    requires Core(s)
    ensures Core(IntStep(s, OpTimeout(t)).0) && Calm(s, IntStep(s, OpTimeout(t)).0)
  {
    if t in s.evts && t < |s.tcb| && s.tcb[t].tstat.Waiting? {
      WakeCore(s, t, if s.tcb[t].tstat.on == Dly then E_OK else E_TMOUT);
    }
  }

  /** A call from an interrupt handler. */
  lemma IntStepInv(s: State, op: IntOp)
    requires Inv(s) && s.intctx
    ensures Inv(IntStep(s, op).0)
  {
    hide ReadyOk, WaitOk, OrderOk, EvtOk, OwnOk, PriOk, ObjOk,
         ActTsk, WupTsk, RelWai, RotateReadyQueue, SigSem, SetFlg, FsndDtq, SendData;
    match op
    case OpIntExit => ExitInv(s);
    case OpIActTsk(t) => ActTskCore(s, t); CalmInv(s, ActTsk(s, t).0);
    case OpIWupTsk(t) => WupTskCore(s, t); CalmInv(s, WupTsk(s, t).0);
    case OpIRelWai(t) => RelWaiCore(s, t); CalmInv(s, RelWai(s, t).0);
    case OpIRotRdq(p) => RotateCore(s, p); CalmInv(s, RotateReadyQueue(s, p));
    case OpISigSem(o) => SigSemCore(s, o); CalmInv(s, SigSem(s, o).0);
    case OpISetFlg(o, ptn) => SetFlgCore(s, o, ptn); CalmInv(s, SetFlg(s, o, ptn).0);
    case OpIpsndDtq(o, it) =>
      if IsDtq(s, o) && !BadDataPri(s.inib[o], it) {
        SendCore(s, o, it);
        if SendData(s, o, it).Some? {
          CalmInv(s, SendData(s, o, it).value);
        }
      }
    case OpIfsndDtq(o, it) => FsndCore(s, o, it); CalmInv(s, FsndDtq(s, o, it).0);
    case OpTimeout(t) => TimeoutCore(s, t); CalmInv(s, IntStep(s, OpTimeout(t)).0);
  }

  /** Leaving the last handler makes up for the dispatch a handler asked for. */
  lemma ExitInv(s: State)
    requires Inv(s)
    ensures Inv(Settle(s.(intctx := false)))
  {
    hide ReadyOk, WaitOk, OrderOk, EvtOk, OwnOk, PriOk, ObjOk;
    var s1 := s.(intctx := false);
    FlagsMtx(s, s1);
    FewerWaiters(s, s1);
    SettleInv(s1);
  }

  lemma EnterInv(s: State)
    requires Inv(s)
    ensures Inv(s.(intctx := true))
  {
    var s1 := s.(intctx := true);
    hide ReadyOk, WaitOk, OrderOk, EvtOk, OwnOk, PriOk, ObjOk;
    FlagsMtx(s, s1);
    FewerWaiters(s, s1);
  }

  lemma WaiFbdInv(s: State, t: Tid, fbd: bool)
    requires Inv(s) && !s.intctx && t < |s.tcb|
    ensures Inv(s.(tcb := s.tcb[t := s.tcb[t].(waifbd := fbd)]))
  {
    hide ReadyOk, WaitOk, OrderOk, EvtOk, OwnOk, PriOk, ObjOk;
    FieldCore(s, t, s.tcb[t].(waifbd := fbd));
    CalmInv(s, s.(tcb := s.tcb[t := s.tcb[t].(waifbd := fbd)]));
  }

  lemma ForbidInv(s: State, t: Tid, texmask: bool)
    requires Inv(s) && !s.intctx
    ensures Inv(DisWai(s, t, texmask).0) && Inv(EnaWai(s, t).0)
  {
    hide Inv;
    if t < |s.tcb| {
      WaiFbdInv(s, t, true);
      WaiFbdInv(s, t, false);
    }
  }

  lemma DlyTskInv(s: State, r: Tid)
    requires Inv(s) && s.run == Some(r) && s.dspflg
    ensures Inv(DlyTsk(s, r).0)
  {
    hide ReadyOk, WaitOk, OrderOk, EvtOk, OwnOk, PriOk, ObjOk, MakeWait, Settle;
    if !s.tcb[r].waifbd {
      SleepInv(s, r, Dly, true);
    }
  }

  lemma RotRdqInv(s: State, r: Tid, p: Option<Pri>)
    requires Inv(s) && s.run == Some(r)
    ensures Inv(ManageStep(s, r, OpRotRdq(p)).0)
  {
    hide ReadyOk, WaitOk, OrderOk, EvtOk, OwnOk, PriOk, ObjOk, RotateReadyQueue, Settle;
    var pri := if p.None? then s.tcb[r].bpri else p.value;
    RotateCore(s, pri);
    CalmInv(s, RotateReadyQueue(s, pri));
  }

  lemma ManageInv(s: State, r: Tid, op: ManageOp)
    requires Inv(s) && !s.intctx && s.run == Some(r) && (MayBlock(Manage(op)) ==> s.dspflg) && Admits(s, Manage(op))
    ensures Inv(ManageStep(s, r, op).0)
  {
    hide ReadyOk, WaitOk, OrderOk, EvtOk, OwnOk, PriOk, ObjOk, ActTsk, ExtTsk, TerTsk, ChgPri, AcreTsk, DelTsk,
         SlpTsk, DlyTsk, WupTsk, RelWai, SusTsk, RsmTsk, DisWai, EnaWai, DisDsp, EnaDsp, ChgIpm, RotateReadyQueue,
         Settle, RunOk, FlagsOk;
    match op
    case OpActTsk(t) => ActTskCore(s, t); CalmInv(s, ActTsk(s, t).0);
    case OpExtTsk => ExtTskInv(s, r);
    case OpTerTsk(t) => TerTskInv(s, r, t);
    case OpChgPri(t, p) => ChgPriInv(s, r, t, p);
    case OpAcreTsk(p, act) => AcreTskInv(s, r, p, act);
    case OpDelTsk(t) => DelCore(s, t); CalmInv(s, DelTsk(s, t).0);
    case OpSlpTsk(tmo) => SlpTskInv(s, r, tmo);
    case OpDlyTsk => DlyTskInv(s, r);
    case OpWupTsk(t) => WupTskCore(s, t); CalmInv(s, WupTsk(s, t).0);
    case OpRelWai(t) => RelWaiCore(s, t); CalmInv(s, RelWai(s, t).0);
    case OpSusTsk(t) => SusTskInv(s, r, t);
    case OpRsmTsk(t) => RsmTskInv(s, t);
    case OpDisWai(t, texmask) => ForbidInv(s, t, texmask);
    case OpEnaWai(t) => ForbidInv(s, t, false);
    case OpDisDsp => FlagOpsInv(s, true);
    case OpEnaDsp => FlagOpsInv(s, true);
    case OpChgIpm(enaall) => FlagOpsInv(s, enaall);
    case OpRotRdq(p) => RotRdqInv(s, r, p);
  }

  lemma DataInv(s: State, r: Tid, op: DataOp)
    requires Inv(s) && !s.intctx && s.run == Some(r) && (MayBlock(Data(op)) ==> s.dspflg)
    ensures Inv(DataStep(s, r, op).0)
  {
    hide ReadyOk, WaitOk, OrderOk, EvtOk, OwnOk, PriOk, ObjOk,
         SndDtq, FsndDtq, RcvDtq, IniDtq, GetMpf, RelMpf, IniMpf;
    match op
    case OpSndDtq(o, it, tmo) => SndDtqInv(s, r, o, it, tmo);
    case OpPsndDtq(o, it) => SndDtqInv(s, r, o, it, Pol);
    case OpFsndDtq(o, it) => FsndCore(s, o, it); CalmInv(s, FsndDtq(s, o, it).0);
    case OpRcvDtq(o, tmo) => RcvDtqInv(s, r, o, tmo);
    case OpPrcvDtq(o) => RcvDtqInv(s, r, o, Pol);
    case OpIniDtq(o) => IniDtqInv(s, o);
    case OpGetMpf(o, tmo) => GetMpfInv(s, r, o, tmo);
    case OpPgetMpf(o) => GetMpfInv(s, r, o, Pol);
    case OpRelMpf(o, b) => RelMpfInv(s, o, b);
    case OpIniMpf(o) => IniMpfInv(s, o);
  }

  lemma SyncInv(s: State, r: Tid, op: SyncOp)
    requires Inv(s) && !s.intctx && s.run == Some(r) && (MayBlock(Sync(op)) ==> s.dspflg)
    ensures Inv(SyncStep(s, r, op).0)
  {
    hide ReadyOk, WaitOk, OrderOk, EvtOk, OwnOk, PriOk, ObjOk, FlgCond, LocMtx, UnlMtx, IniMtx,
         SigSem, WaiSem, IniSem, SetFlg, ClrFlg, WaiFlg, IniFlg, RotateReadyQueue;
    match op
    case OpLocMtx(o, tmo) => LocMtxInv(s, r, o, tmo);
    case OpPlocMtx(o) => LocMtxInv(s, r, o, Pol);
    case OpUnlMtx(o) => UnlMtxInv(s, r, o);
    case OpIniMtx(o) => IniMtxInv(s, o);
    case OpSigSem(o) => SigSemCore(s, o); CalmInv(s, SigSem(s, o).0);
    case OpWaiSem(o, tmo) => WaiSemInv(s, r, o, tmo);
    case OpPolSem(o) => WaiSemInv(s, r, o, Pol);
    case OpIniSem(o) => IniSemInv(s, o);
    case OpSetFlg(o, ptn) => SetFlgCore(s, o, ptn); CalmInv(s, SetFlg(s, o, ptn).0);
    case OpClrFlg(o, ptn) => ClrFlgCore(s, o, ptn); CalmInv(s, ClrFlg(s, o, ptn).0);
    case OpWaiFlg(o, w, orw, tmo) => WaiFlgInv(s, r, o, w, orw, tmo);
    case OpPolFlg(o, w, orw) => WaiFlgInv(s, r, o, w, orw, Pol);
    case OpIniFlg(o) => IniFlgInv(s, o);
  }

  /** One step, whatever it is, keeps the kernel invariant, but for an acre_tsk that leaves
      a dispatch undone. */
  lemma StepInv(s: State, op: Op)
    requires Inv(s) && Admits(s, op)
    ensures Inv(Step(s, op).0)
  {
    hide ReadyOk, WaitOk, OrderOk, EvtOk, OwnOk, PriOk, ObjOk, IntStep, ManageStep, SyncStep, DataStep;
    if op.IntEnter? {
      EnterInv(s);
    } else if op.Int? {
      if s.intctx {
        IntStepInv(s, op.i);
      }
    } else if !s.intctx && s.run.Some? && s.run.value < |s.tcb| && (MayBlock(op) ==> s.dspflg) {
      match op
      case Manage(m) => ManageInv(s, s.run.value, m);
      case Sync(y) => SyncInv(s, s.run.value, y);
      case Data(d) => DataInv(s, s.run.value, d);
    }
  }

  // ---- start-up ------------------------------------------------------------------

  /** What the configuration says about a task; exs is false for the control blocks
      left free for acre_tsk. */
  datatype TaskCfg = TaskCfg(exs: bool, ipri: Pri, minpri: Pri)

  function InitTcb(c: TaskCfg): Tcb {
    Tcb(Tinib(!c.exs, c.ipri, c.minpri), c.exs, Dormant, c.ipri, c.ipri, false, false, false, [], false, E_OK,
        0, false, 0, Item(0, 0))
  }

  function InitCb(i: Inib): Cb {
    match i
    case SemInib(_, isemcnt, _) => SemCb(isemcnt)
    case FlgInib(_, iflgptn, _, _) => FlgCb(iflgptn)
    case MtxInib(_) => MtxCb(None)
    case DtqInib(_, _, _, _) => DtqCb([])
    case MpfInib(_, blkcnt) => MpfCb(NewPool(blkcnt))
  }

  function FreeFrom(cfg: seq<TaskCfg>, t: nat): seq<Tid>
    decreases |cfg| - t
  {
    if t >= |cfg| then [] else (if cfg[t].exs then [] else [t]) + FreeFrom(cfg, t + 1)
  }

  /** initialize_task and the object initializations, before any task is started. */
  function Blank(cfg: seq<TaskCfg>, inib: seq<Inib>): State {
    State(seq(|cfg|, i requires 0 <= i < |cfg| => InitTcb(cfg[i])),
          seq(16, _ => []), None, false, true, false, true,
          seq(2 * |inib|, _ => []), inib, seq(|inib|, i requires 0 <= i < |inib| => InitCb(inib[i])),
          {}, FreeFrom(cfg, 0))
  }

  /** The tasks with TA_ACT are started in the order of the task order table. */
  function StartAll(s: State, ts: seq<Tid>): State
    requires Shape(s)
    decreases |ts|
  {
    if ts == [] || ts[0] >= |s.tcb| then s else StartAll(MakeActive(s, ts[0]), ts[1..])
  }

  function Boot(cfg: seq<TaskCfg>, inib: seq<Inib>, acts: seq<Tid>): State {
    Settle(StartAll(Blank(cfg, inib), acts))
  }

  ghost predicate CfgOk(cfg: seq<TaskCfg>, inib: seq<Inib>, acts: seq<Tid>) {
    && NoDup(acts) && (forall t :: t in acts ==> t < |cfg| && cfg[t].exs)
    && (forall o :: 0 <= o < |inib| && inib[o].SemInib? ==> inib[o].isemcnt <= inib[o].maxsem)
  }

  lemma {:induction false} FreeFromSpec(cfg: seq<TaskCfg>, t: nat)
    ensures NoDup(FreeFrom(cfg, t))
    ensures forall u :: u in FreeFrom(cfg, t) <==> t <= u < |cfg| && !cfg[u].exs
    decreases |cfg| - t
  {
    if t < |cfg| {
      FreeFromSpec(cfg, t + 1);
      if !cfg[t].exs {
        ConsNoDup(t, FreeFrom(cfg, t + 1));
      }
    }
  }

  lemma BlankCore(cfg: seq<TaskCfg>, inib: seq<Inib>)
    requires forall o :: 0 <= o < |inib| && inib[o].SemInib? ==> inib[o].isemcnt <= inib[o].maxsem
    ensures Core(Blank(cfg, inib))
  {
    hide ReadyOk, WaitOk, OrderOk, EvtOk, OwnOk, PriOk, ObjOk, InitTcb, InitCb;
    var s := Blank(cfg, inib);
    BlankLinks(cfg, inib);
    BlankFree(cfg, inib);
    BlankMtx(cfg, inib);
    forall o | 0 <= o < |inib| ensures ObjOk(s, o) {
      BlankObj(cfg, inib, o);
    }
  }

  lemma BlankLinks(cfg: seq<TaskCfg>, inib: seq<Inib>)
    ensures Links(Blank(cfg, inib), {})
  {
    hide FreeFrom;
  }

  lemma BlankFree(cfg: seq<TaskCfg>, inib: seq<Inib>)
    ensures FreeOk(Blank(cfg, inib))
  {
    hide FreeFrom;
    FreeFromSpec(cfg, 0);
  }

  lemma BlankMtx(cfg: seq<TaskCfg>, inib: seq<Inib>)
    ensures MtxOk(Blank(cfg, inib), {}, {})
  {
    hide FreeFrom;
  }

  lemma BlankObj(cfg: seq<TaskCfg>, inib: seq<Inib>, o: nat)
    requires o < |inib| && (inib[o].SemInib? ==> inib[o].isemcnt <= inib[o].maxsem)
    ensures Shape(Blank(cfg, inib)) && ObjOk(Blank(cfg, inib), o)
  {
    hide FreeFrom, InitTcb;
  }

  lemma {:induction false} StartAllCore(s: State, ts: seq<Tid>)
    requires Core(s) && s.dspflg && NoDup(ts)
    requires forall t :: t in ts ==> t < |s.tcb| && s.tcb[t].exs && s.tcb[t].tstat.Dormant?
    ensures Core(StartAll(s, ts)) && StartAll(s, ts).dspflg && |StartAll(s, ts).tcb| == |s.tcb|
    decreases |ts|
  {
    hide ReadyOk, WaitOk, OrderOk, EvtOk, OwnOk, PriOk, ObjOk;
    if ts != [] {
      assert ts[0] in ts;
      ActiveCore(s, ts[0]);
      TailOf(ts);
      StartAllCore(MakeActive(s, ts[0]), ts[1..]);
    }
  }

  lemma BootInv(cfg: seq<TaskCfg>, inib: seq<Inib>, acts: seq<Tid>)
    requires CfgOk(cfg, inib, acts)
    ensures Inv(Boot(cfg, inib, acts))
  {
    hide ReadyOk, WaitOk, OrderOk, EvtOk, OwnOk, PriOk, ObjOk;
    BlankCore(cfg, inib);
    StartAllCore(Blank(cfg, inib), acts);
    SettleInv(StartAll(Blank(cfg, inib), acts));
  }

  // ---- runs -----------------------------------------------------------------------

  /** One call of a run.  An acre_tsk that would leave a dispatch undone is not made. */
  function Do(s: State, op: Op): (State, Er)
    requires Shape(s)
  {
    if Admits(s, op) then Step(s, op) else (s, E_SYS)
  }

  lemma DoInv(s: State, op: Op)
    requires Inv(s)
    ensures Inv(Do(s, op).0)
  {
    hide Inv, Step;
    if Admits(s, op) {
      StepInv(s, op);
    }
  }

  /** The state after a sequence of calls, whatever they are. */
  ghost function Run(s: State, ops: seq<Op>): State
    requires Inv(s)
    ensures Inv(Run(s, ops))
    decreases |ops|
  {
    if ops == [] then s
    else
      DoInv(s, ops[0]);
      Run(Do(s, ops[0]).0, ops[1..])
  }

  ghost predicate Reachable(s: State) {
    exists cfg, inib, acts, ops :: CfgOk(cfg, inib, acts) && ReachedBy(s, cfg, inib, acts, ops)
  }

  ghost predicate ReachedBy(s: State, cfg: seq<TaskCfg>, inib: seq<Inib>, acts: seq<Tid>, ops: seq<Op>)
    requires CfgOk(cfg, inib, acts)
  {
    BootInv(cfg, inib, acts);
    s == Run(Boot(cfg, inib, acts), ops)
  }

  /** Every reachable state satisfies the kernel invariant. */
  lemma ReachableInv(s: State)
    requires Reachable(s)
    ensures Inv(s)
  {
    hide Inv;
    var cfg, inib, acts, ops :| CfgOk(cfg, inib, acts) && ReachedBy(s, cfg, inib, acts, ops);
    BootInv(cfg, inib, acts);
  }

  /** In every reachable state the link of each task is on exactly the list its state
      demands: its ready queue, its wait queue, the free list, or none. */
  lemma WhereTasksAre(s: State, t: Tid)
    requires Reachable(s) && t < |s.tcb|
    ensures Shape(s)
    ensures forall p :: 0 <= p < 16 ==> (t in s.ready[p] <==> s.tcb[t].tstat.Runnable? && s.tcb[t].pri == p)
    ensures forall q :: 0 <= q < |s.wq| ==> (t in s.wq[q] <==> WaitsOn(s.tcb[t], q))
    ensures t in s.freeTcb <==> !s.tcb[t].exs
    ensures !s.tcb[t].exs ==> s.tcb[t].tstat.Dormant?
    ensures t in s.evts <==> s.tcb[t].tstat.Waiting? && s.tcb[t].tmo
    ensures NoDup(s.freeTcb) && forall q :: 0 <= q < |s.wq| ==> NoDup(s.wq[q])
    ensures forall p :: 0 <= p < 16 ==> NoDup(s.ready[p])
  {
    ReachableInv(s);
    hide OwnOk, PriOk, ObjOk, OrderOk;
  }

  /** In every reachable state the current priority of each task is its base priority
      raised by exactly the ceilings it holds, and only it owns what it holds. */
  lemma PrioritiesAre(s: State, t: Tid)
    requires Reachable(s) && t < |s.tcb|
    ensures IsRaised(s.inib, s.tcb[t].bpri, s.tcb[t].held, s.tcb[t].pri)
    ensures Shape(s)
    ensures forall m :: 0 <= m < |s.inib| && IsMtx(s, m) ==>
      (s.objs[m].loctsk == Some(t) <==> m in s.tcb[t].held)
    ensures forall m :: 0 <= m < |s.inib| && IsMtx(s, m) && s.objs[m].loctsk == None ==> s.wq[m] == []
    ensures s.tcb[t].tstat.Dormant? ==> s.tcb[t].held == []
  {
    ReachableInv(s);
    forall m | 0 <= m < |s.inib| && IsMtx(s, m) && s.objs[m].loctsk == None ensures s.wq[m] == [] {
      assert ObjOk(s, m);
    }
    hide ReadyOk, WaitOk, OrderOk, EvtOk, ObjOk;
    CalcPriSpec(s.inib, s.tcb[t].bpri, s.tcb[t].held);
  }

  /** Whenever dispatching is not pending, the running task is the head of the highest
      non-empty ready queue, and no task exactly when nothing is runnable. */
  lemma RunningIsHighest(s: State)
    requires Reachable(s) && !s.intctx && s.dspflg
    ensures Shape(s) && (s.run.Some? ==> s.run.value < |s.tcb| && s.tcb[s.run.value].tstat.Runnable?)
    ensures s.run.Some? ==>
      s.ready[s.tcb[s.run.value].pri] != [] && s.ready[s.tcb[s.run.value].pri][0] == s.run.value
    ensures s.run.Some? ==> forall u :: 0 <= u < |s.tcb| && s.tcb[u].tstat.Runnable? ==>
      s.tcb[s.run.value].pri <= s.tcb[u].pri
    ensures s.run.None? ==> forall u :: 0 <= u < |s.tcb| ==> !s.tcb[u].tstat.Runnable?
  {
    hide WaitOk, OrderOk, EvtOk, OwnOk, PriOk, ObjOk;
    ReachableInv(s);
    if s.run.Some? {
      var p := TopFromInv(s.ready, 0);
      assert s.ready[p][0] in s.ready[p];
    } else {
      TopFromEmpty(s.ready, 0);
    }
  }
}
