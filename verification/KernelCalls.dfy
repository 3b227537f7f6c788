/** Service calls as their callers see them: which result each call returns and when, that a
    call that fails changes nothing, what a call that succeeds does, and when the running
    task may change. */
module KernelCalls {
  import opened Lists
  import opened KernelSpec
  import opened KernelInv
  import opened KernelSteps
  import opened KernelRun
  import opened KernelRest
  import opened KernelWaits
  import opened KernelEnds
  import opened KernelStates

  // ---- results of the calls that never wait -------------------------------------------------------

  /** A ceiling of a mutex that t holds or waits for is below the base priority p. */
  ghost predicate CeilingBelow(s: State, t: Tid, p: Pri)
    requires t < |s.tcb|
  {
    exists m: nat ::
      && m < |s.inib| && s.inib[m].MtxInib? && s.inib[m].proto.Ceiling? && s.inib[m].proto.c > p
      && (m in s.tcb[t].held || WaitsOn(s.tcb[t], m))
  }

  /** The result of a call that names task t. */
  ghost function TaskVerdict(s: State, op: Op, t: Tid): Er {
    if t >= |s.tcb| then E_ID
    else if op == Manage(OpTerTsk(t)) && s.run == Some(t) then E_ILUSE
    else if op == Manage(OpSusTsk(t)) && s.run == Some(t) && !s.dspflg then E_CTX
    else if !s.tcb[t].exs then E_NOEXS
    else
      var v := s.tcb[t];
      if op == Manage(OpActTsk(t)) || op == Int(OpIActTsk(t)) then
        if v.actque && !v.tstat.Dormant? then E_QOVR else E_OK
      else if op == Manage(OpDelTsk(t)) then
        if v.tstat.Dormant? && v.ini.dyn then E_OK else E_OBJ
      else if v.tstat.Dormant? then E_OBJ
      else if op == Manage(OpWupTsk(t)) || op == Int(OpIWupTsk(t)) then
        if v.wupque && !(v.tstat.Waiting? && v.tstat.on == Slp) then E_QOVR else E_OK
      else if op == Manage(OpRelWai(t)) || op == Int(OpIRelWai(t)) then
        if v.tstat.Waiting? then E_OK else E_OBJ
      else if op == Manage(OpSusTsk(t)) then
        if v.tstat.Suspended? || (v.tstat.Waiting? && v.tstat.susp) then E_QOVR else E_OK
      else if op == Manage(OpRsmTsk(t)) then
        if v.tstat.Suspended? || (v.tstat.Waiting? && v.tstat.susp) then E_OK else E_OBJ
      else if op == Manage(OpEnaWai(t)) then if v.waifbd then E_OK else E_OBJ
      else if op == Manage(OpDisWai(t, true)) then if v.waifbd then E_QOVR else E_OK
      else if op == Manage(OpDisWai(t, false)) then if v.waifbd then E_QOVR else E_OBJ
      else if op.Manage? && op.m.OpChgPri? && s.run.Some? && s.run.value < |s.tcb| then
        var p := if op.m.pri.Some? then op.m.pri.value else v.ini.ipri;
        if p < s.tcb[s.run.value].ini.minpri || CeilingBelow(s, t, p) then E_ILUSE else E_OK
      else E_OK
  }

  lemma BelowCeil(inib: seq<Inib>, p: Pri, m: nat)
    requires !CeilOk(inib, p, m)
    ensures m < |inib| && inib[m].MtxInib? && inib[m].proto.Ceiling? && inib[m].proto.c > p
  {
  }

  lemma BelowIs(s: State, t: Tid, p: Pri)
    requires t < |s.tcb|
    ensures CheckCeilpri(s, t, p) <==> !CeilingBelow(s, t, p)
  {
    if !CheckCeilpri(s, t, p) {
      var m: nat :| (m in s.tcb[t].held || WaitsOn(s.tcb[t], m)) && !CeilOk(s.inib, p, m);
      BelowCeil(s.inib, p, m);
    }
  }

  /** The result of every call that names a task. */
  lemma TaskResult(s: State, op: Op, t: Tid)
    requires Inv(s) && Target(op) == Some(t) && (if op.Int? then s.intctx else Called(s, op))
    ensures Step(s, op).1 == TaskVerdict(s, op, t)
  {
    hide ReadyOk, WaitOk, OrderOk, EvtOk, OwnOk, PriOk, ObjOk, ManageStep, IntStep, TaskVerdict;
    if op.Int? {
      IntVerdict(s, op.i, t);
    } else {
      ManageVerdict(s, s.run.value, op.m, t);
    }
  }

  lemma IntVerdict(s: State, i: IntOp, t: Tid)
    requires Shape(s) && Target(Int(i)) == Some(t)
    ensures IntStep(s, i).1 == TaskVerdict(s, Int(i), t)
  {
    hide Wake, MakeActive;
  }

  lemma ManageVerdict(s: State, r: Tid, m: ManageOp, t: Tid)
    requires Shape(s) && s.run == Some(r) && r < |s.tcb| && Target(Manage(m)) == Some(t)
    ensures ManageStep(s, r, m).1 == TaskVerdict(s, Manage(m), t)
  {
    hide ChgPri, SusTsk, RsmTsk, TerTsk, Wake, MakeActive, Settle, CeilingBelow;
    if m.OpChgPri? {
      ChgPriVerdict(s, r, m.pri, t);
    } else if m.OpSusTsk? || m.OpRsmTsk? {
      SusVerdict(s, r, t);
    } else if m.OpTerTsk? {
      TerVerdict(s, r, t);
    }
  }

  lemma SusVerdict(s: State, r: Tid, t: Tid)
    requires Shape(s) && s.run == Some(r)
    ensures SusTsk(s, r, t).1 == TaskVerdict(s, Manage(OpSusTsk(t)), t)
    ensures RsmTsk(s, t).1 == TaskVerdict(s, Manage(OpRsmTsk(t)), t)
  {
    hide MakeNonRunnable, MakeActive, Settle;
  }

  lemma TerVerdict(s: State, r: Tid, t: Tid)
    requires Shape(s) && s.run == Some(r)
    ensures TerTsk(s, r, t).1 == TaskVerdict(s, Manage(OpTerTsk(t)), t)
  {
    hide Finish, Detach, Settle;
  }

  lemma ChgPriVerdict(s: State, r: Tid, p: Option<Pri>, t: Tid)
    requires Shape(s) && s.run == Some(r) && r < |s.tcb|
    ensures ChgPri(s, r, t, p).1 == TaskVerdict(s, Manage(OpChgPri(t, p)), t)
  {
    hide ChangePriority, Settle, CheckCeilpri, CeilingBelow, ScanCeilmtx;
    if t < |s.tcb| {
      BelowIs(s, t, if p.None? then s.tcb[t].ini.ipri else p.value);
    }
  }

  /** The result of the other calls on objects. */
  ghost function ObjectVerdict(s: State, op: Op): Er
    requires Shape(s)
  {
    match op
    case Sync(y) =>
      if y.OpSigSem? then
        if !IsSem(s, y.o) then E_ID
        else if s.wq[y.o] == [] && s.objs[y.o].semcnt >= s.inib[y.o].maxsem then E_QOVR else E_OK
      else if y.OpUnlMtx? then
        if !IsMtx(s, y.o) then E_ID else if s.run.Some? && s.objs[y.o] == MtxCb(s.run) then E_OK else E_OBJ
      else if y.OpIniMtx? then (if IsMtx(s, y.o) then E_OK else E_ID)
      else if y.OpIniSem? then (if IsSem(s, y.o) then E_OK else E_ID)
      else (if IsFlg(s, y.o) then E_OK else E_ID)
    case Data(d) =>
      if d.OpRelMpf? then
        if !IsMpf(s, d.o) then E_ID else if d.b in s.objs[d.o].pool.alloc then E_OK else E_PAR
      else if d.OpIniMpf? then (if IsMpf(s, d.o) then E_OK else E_ID)
      else if d.OpFsndDtq? then (if IsDtq(s, d.o) && !s.inib[d.o].prio then E_OK else E_ID)
      else (if IsDtq(s, d.o) then E_OK else E_ID)
    case Int(i) =>
      if i.OpISigSem? then
        if !IsSem(s, i.o) then E_ID
        else if s.wq[i.o] == [] && s.objs[i.o].semcnt >= s.inib[i.o].maxsem then E_QOVR else E_OK
      else if i.OpISetFlg? then (if IsFlg(s, i.o) then E_OK else E_ID)
      else if i.OpIfsndDtq? then (if IsDtq(s, i.o) && !s.inib[i.o].prio then E_OK else E_ID)
      else if i.OpIpsndDtq? then
        if !IsDtq(s, i.o) then E_ID
        else if BadPri(s, i.o, i.it) then E_PAR
        else if s.wq[|s.inib| + i.o] != [] || |s.objs[i.o].items| < s.inib[i.o].dtqcnt then E_OK else E_TMOUT
      else E_OK
    case Manage(_) => E_OK
    case IntEnter => E_OK
  }

  lemma ObjectResult(s: State, op: Op)
    requires Inv(s) && Named(op).Some? && Limit(op).None? && (if op.Int? then s.intctx else Called(s, op))
    ensures Step(s, op).1 == ObjectVerdict(s, op)
  {
    hide ReadyOk, WaitOk, OrderOk, EvtOk, OwnOk, PriOk, ObjOk, IntStep, SyncStep, DataStep, ObjectVerdict;
    match op
    case Int(i) => SignalVerdict(s, i);
    case Sync(y) => SyncVerdict(s, s.run.value, y);
    case Data(d) => DataVerdict(s, s.run.value, d);
  }

  lemma SignalVerdict(s: State, i: IntOp)
    requires Shape(s) && Named(Int(i)).Some?
    ensures IntStep(s, i).1 == ObjectVerdict(s, Int(i))
  {
    hide FlgWalk, WakeHead, HandOver, AddItem, ForceItem;
  }

  lemma SyncVerdict(s: State, r: Tid, y: SyncOp)
    requires Shape(s) && s.run == Some(r) && r < |s.tcb| && Limit(Sync(y)).None?
    ensures SyncStep(s, r, y).1 == ObjectVerdict(s, Sync(y))
  {
    hide FlgWalk, WakeAll, WakeHead, Unhold, MutexRelease, Strip, Settle;
  }

  lemma DataVerdict(s: State, r: Tid, d: DataOp)
    requires Core(s) && r < |s.tcb| && Limit(Data(d)).None?
    ensures DataStep(s, r, d).1 == ObjectVerdict(s, Data(d))
  {
    hide ReadyOk, WaitOk, OrderOk, EvtOk, OwnOk, PriOk, WakeAll, WakeHead, ForceSendData, Settle;
    if IsMpf(s, d.o) {
      assert ObjOk(s, d.o);
    }
  }

  /** A call made in the wrong context returns E_CTX; the entry of a handler never fails. */
  lemma WrongContext(s: State, op: Op)
    requires Inv(s) && (if op.Int? then !s.intctx else !op.IntEnter? && !Called(s, op))
    ensures Step(s, op) == (s, E_CTX)
  {
    hide ReadyOk, WaitOk, OrderOk, EvtOk, OwnOk, PriOk, ObjOk, ManageStep, SyncStep, DataStep, IntStep;
  }

  // ---- a call that fails ------------------------------------------------------------------------

  predicate Failed(er: Er) {
    er != E_OK && er != Blocked
  }

  /** A call that returns an error has changed nothing at all. */
  lemma FailsAlone(s: State, op: Op)
    requires Inv(s) && Failed(Step(s, op).1)
    ensures Step(s, op).0 == s
  {
    hide ReadyOk, WaitOk, OrderOk, EvtOk, OwnOk, PriOk, ObjOk, ManageStep, SyncStep, DataStep, IntStep;
    if op.Int? && s.intctx {
      IntFails(s, op.i);
    } else if Called(s, op) {
      SettledInv(s);
      match op
      case Manage(m) => ManageFails(s, s.run.value, m);
      case Sync(y) => SyncFails(s, s.run.value, y);
      case Data(d) => DataFails(s, s.run.value, d);
    }
  }

  lemma IntFails(s: State, i: IntOp)
    requires Shape(s) && Failed(IntStep(s, i).1)
    ensures IntStep(s, i).0 == s
  {
    hide FlgWalk, WakeHead, Wake, SendData, ForceSendData, MakeActive, RotateReadyQueue, Settle;
  }

  lemma ManageFails(s: State, r: Tid, m: ManageOp)
    requires Shape(s) && r < |s.tcb| && Settle(s) == s && Failed(ManageStep(s, r, m).1)
    ensures ManageStep(s, r, m).0 == s
  {
    hide Wake, MakeActive, Finish, Detach, ChangePriority, MakeNonRunnable, MakeWait, RotateReadyQueue, CheckCeilpri, ScanCeilmtx;
  }

  lemma SyncFails(s: State, r: Tid, y: SyncOp)
    requires Shape(s) && r < |s.tcb| && Settle(s) == s && Failed(SyncStep(s, r, y).1)
    ensures SyncStep(s, r, y).0 == s
  {
    hide FlgWalk, WakeAll, WakeHead, Unhold, MutexRelease, MutexAcquire, Strip, WobjMakeWait, TakePattern, Settle;
  }

  lemma DataFails(s: State, r: Tid, d: DataOp)
    requires Shape(s) && r < |s.tcb| && Settle(s) == s && Failed(DataStep(s, r, d).1)
    ensures DataStep(s, r, d).0 == s
  {
    hide WakeAll, WakeHead, SendData, ForceSendData, ReceiveData, WobjMakeWait, Settle, GetBlock, RelBlock;
  }

  // ---- who has the processor ----------------------------------------------------------------------

  /** The flags after a step: only the entry and exit of handlers, dis_dsp, ena_dsp, chg_ipm and
      ext_tsk change them. */
  predicate FlagsAfter(s: State, op: Op, er: Er, s1: State) {
    && s1.intctx == (op.IntEnter? || (s.intctx && op != Int(OpIntExit)))
    && s1.disdsp == (if !op.Manage? || er == E_CTX then s.disdsp
                     else if op.m.OpDisDsp? then true else if op.m.OpEnaDsp? || op.m.OpExtTsk? then false else s.disdsp)
    && s1.ipmflg == (if !op.Manage? || er == E_CTX then s.ipmflg
                     else if op.m.OpChgIpm? then op.m.enaall else op.m.OpExtTsk? || s.ipmflg)
    && s1.dspflg == (s1.ipmflg && !s1.disdsp)
  }

  /** Inside handlers, and while dispatching is disabled, the running task keeps the processor
      whatever is called; otherwise the task to run has it after every step. */
  lemma RunningTask(s: State, op: Op)
    requires Inv(s)
    ensures var (s1, er) := Step(s, op);
      && FlagsAfter(s, op, er, s1)
      && (s1.intctx || !s1.dspflg ==> s1.run == s.run)
      && (!s1.intctx && s1.dspflg && Admits(s, op) ==> s1.run == Top(s1.ready))
  {
    hide ReadyOk, WaitOk, OrderOk, EvtOk, OwnOk, PriOk, ObjOk, ManageStep, SyncStep, DataStep, IntStep, Admits, Top;
    if Admits(s, op) {
      StepInv(s, op);
    }
    if op.Int? && s.intctx {
      IntCpu(s, op.i);
    } else if Called(s, op) {
      match op
      case Manage(m) => ManageCpu(s, s.run.value, m);
      case Sync(y) => SyncCpu(s, s.run.value, y);
      case Data(d) => DataCpu(s, s.run.value, d);
    }
  }

  /** At most a dispatch has happened since s. */
  predicate Settled(s: State, s1: State) {
    CpuOf(s1) == CpuOf(s) || (s.dspflg && CpuOf(s1) == CpuOf(s).(run := s1.run))
  }

  lemma IntCpu(s: State, i: IntOp)
    requires Shape(s)
    ensures i.OpIntExit? ==> Settled(s.(intctx := false), IntStep(s, i).0)
    ensures !i.OpIntExit? ==> CpuOf(IntStep(s, i).0) == CpuOf(s)
  {
    hide FlgWalk, WakeHead, Wake, HandOver, MakeActive, RotateReadyQueue, AddItem, ForceItem;
  }

  lemma DispatchCpu(s: State, s1: State)
    requires CpuOf(s1) == CpuOf(s)
    ensures Settled(s, s1) && Settled(s, Settle(s1))
  {
  }

  lemma SyncCpu(s: State, r: Tid, y: SyncOp)
    requires Shape(s) && r < |s.tcb|
    ensures Settled(s, SyncStep(s, r, y).0)
  {
    hide LocMtx, UnlMtx, IniMtx, SigSem, WaiSem, IniSem, SetFlg, ClrFlg, WaiFlg, IniFlg, Settle, Settled;
    match y
    case OpLocMtx(o, tmo) => LocMtxCpu(s, r, o, tmo);
    case OpPlocMtx(o) => LocMtxCpu(s, r, o, Pol);
    case OpUnlMtx(o) => UnlMtxCpu(s, r, o);
    case OpIniMtx(o) => UnlMtxCpu(s, r, o);
    case OpSigSem(o) => SignalCpu(s, o, 0); DispatchCpu(s, SigSem(s, o).0);
    case OpWaiSem(o, tmo) => WaiSemCpu(s, r, o, tmo);
    case OpPolSem(o) => WaiSemCpu(s, r, o, Pol);
    case OpIniSem(o) => IniCpu(s, o);
    case OpSetFlg(o, ptn) => SignalCpu(s, o, ptn); DispatchCpu(s, SetFlg(s, o, ptn).0);
    case OpClrFlg(o, ptn) => SignalCpu(s, o, ptn); DispatchCpu(s, ClrFlg(s, o, ptn).0);
    case OpWaiFlg(o, w, orw, tmo) => WaiFlgCpu(s, r, o, w, orw, tmo);
    case OpPolFlg(o, w, orw) => WaiFlgCpu(s, r, o, w, orw, Pol);
    case OpIniFlg(o) => IniCpu(s, o);
  }

  lemma LocMtxCpu(s: State, r: Tid, m: nat, tmo: Tmo)
    requires Shape(s) && r < |s.tcb|
    ensures Settled(s, LocMtx(s, r, m, tmo).0)
  {
    hide MutexAcquire, WobjMakeWait;
  }

  lemma UnlMtxCpu(s: State, r: Tid, m: nat)
    requires Shape(s) && r < |s.tcb|
    ensures Settled(s, UnlMtx(s, r, m).0) && Settled(s, IniMtx(s, m).0)
  {
    hide Unhold, MutexRelease, WakeAll, Strip;
  }

  lemma SignalCpu(s: State, o: nat, ptn: bv32)
    requires Shape(s)
    ensures CpuOf(SigSem(s, o).0) == CpuOf(SetFlg(s, o, ptn).0) == CpuOf(ClrFlg(s, o, ptn).0) == CpuOf(s)
  {
    hide WakeHead, FlgWalk, SetBits, ClearBits;
  }

  lemma WaiSemCpu(s: State, r: Tid, o: nat, tmo: Tmo)
    requires Shape(s) && r < |s.tcb|
    ensures Settled(s, WaiSem(s, r, o, tmo).0)
  {
    hide WobjMakeWait;
  }

  lemma WaiFlgCpu(s: State, r: Tid, o: nat, w: bv32, orw: bool, tmo: Tmo)
    requires Shape(s) && r < |s.tcb|
    ensures Settled(s, WaiFlg(s, r, o, w, orw, tmo).0)
  {
    hide WobjMakeWait, FlgCond;
  }

  lemma IniCpu(s: State, o: nat)
    requires Shape(s)
    ensures Settled(s, IniSem(s, o).0) && Settled(s, IniFlg(s, o).0) && Settled(s, IniMpf(s, o).0)
    ensures Settled(s, IniDtq(s, o).0)
  {
    hide WakeAll;
  }

  lemma DataCpu(s: State, r: Tid, d: DataOp)
    requires Shape(s) && r < |s.tcb|
    ensures Settled(s, DataStep(s, r, d).0)
  {
    hide SndDtq, RcvDtq, FsndDtq, IniDtq, GetMpf, RelMpf, IniMpf, Settle, Settled;
    match d
    case OpSndDtq(o, it, tmo) => SndDtqCpu(s, r, o, it, tmo);
    case OpPsndDtq(o, it) => SndDtqCpu(s, r, o, it, Pol);
    case OpFsndDtq(o, it) => FsndDtqCpu(s, o, it); DispatchCpu(s, FsndDtq(s, o, it).0);
    case OpRcvDtq(o, tmo) => RcvDtqCpu(s, r, o, tmo);
    case OpPrcvDtq(o) => RcvDtqCpu(s, r, o, Pol);
    case OpIniDtq(o) => IniCpu(s, o);
    case OpGetMpf(o, tmo) => GetMpfCpu(s, r, o, tmo);
    case OpPgetMpf(o) => GetMpfCpu(s, r, o, Pol);
    case OpRelMpf(o, b) => RelMpfCpu(s, o, b);
    case OpIniMpf(o) => IniCpu(s, o);
  }

  lemma TransferCpu(s: State, o: nat, it: Item)
    requires Shape(s) && IsDtq(s, o)
    ensures SendData(s, o, it).Some? ==> CpuOf(SendData(s, o, it).value) == CpuOf(s)
    ensures ReceiveData(s, o).Some? ==> CpuOf(ReceiveData(s, o).value.0) == CpuOf(s)
  {
    hide HandOver, AddItem, WakeHead;
  }

  lemma SndDtqCpu(s: State, r: Tid, o: nat, it: Item, tmo: Tmo)
    requires Shape(s) && r < |s.tcb|
    ensures Settled(s, SndDtq(s, r, o, it, tmo).0)
  {
    hide SendData, ReceiveData, WobjMakeWait, Settle, Settled;
    DispatchCpu(s, s);
    if IsDtq(s, o) {
      TransferCpu(s, o, it);
      DispatchCpu(s, WobjMakeWait(SetItem(s, r, it), r, o, tmo == After));
      if SendData(s, o, it).Some? {
        DispatchCpu(s, SendData(s, o, it).value);
      }
    }
  }

  lemma FsndDtqCpu(s: State, o: nat, it: Item)
    requires Shape(s)
    ensures CpuOf(FsndDtq(s, o, it).0) == CpuOf(s)
  {
    hide ForceSendData;
  }

  lemma RcvDtqCpu(s: State, r: Tid, o: nat, tmo: Tmo)
    requires Shape(s) && r < |s.tcb|
    ensures Settled(s, RcvDtq(s, r, o, tmo).0)
  {
    hide SendData, ReceiveData, WobjMakeWait, Settle, Settled;
    DispatchCpu(s, s);
    if IsDtq(s, o) {
      TransferCpu(s, o, Item(0, 0));
      DispatchCpu(s, WobjMakeWait(s, r, RcvQ(s, o), tmo == After));
      if ReceiveData(s, o).Some? {
        SteadyReceive(s, o);
        DispatchCpu(s, SetItem(ReceiveData(s, o).value.0, r, ReceiveData(s, o).value.1));
      }
    }
  }

  lemma GetMpfCpu(s: State, r: Tid, o: nat, tmo: Tmo)
    requires Shape(s) && r < |s.tcb|
    ensures Settled(s, GetMpf(s, r, o, tmo).0)
  {
    hide WobjMakeWait, GetBlock, NextBlock;
  }

  lemma RelMpfCpu(s: State, o: nat, b: nat)
    requires Shape(s)
    ensures Settled(s, RelMpf(s, o, b).0)
  {
    hide WakeHead, RelBlock;
  }

  /** ext_tsk restores the flags to what they are at the start of a task. */
  function Unlocked(s: State, m: ManageOp): State {
    match m
    case OpExtTsk => s.(disdsp := false, ipmflg := true, dspflg := true)
    case OpDisDsp => s.(disdsp := true, dspflg := false)
    case OpEnaDsp => s.(disdsp := false, dspflg := s.ipmflg)
    case OpChgIpm(enaall) => s.(ipmflg := enaall, dspflg := enaall && !s.disdsp)
    case _ => s
  }

  lemma ManageCpu(s: State, r: Tid, m: ManageOp)
    requires Shape(s) && r < |s.tcb| && FlagsOk(s)
    ensures Settled(Unlocked(s, m), ManageStep(s, r, m).0)
    ensures ManageStep(s, r, m).1 == E_CTX ==> m.OpSusTsk?
  {
    hide ActTsk, WupTsk, RelWai, TerTsk, ExtTsk, ChgPri, SusTsk, RsmTsk, SlpTsk, DlyTsk, AcreTsk, DelTsk, DisWai, EnaWai,
         RotateReadyQueue, Settle, Settled;
    match m
    case OpActTsk(t) => RequestCpu(s, t); DispatchCpu(s, ActTsk(s, t).0);
    case OpWupTsk(t) => RequestCpu(s, t); DispatchCpu(s, WupTsk(s, t).0);
    case OpRelWai(t) => RequestCpu(s, t); DispatchCpu(s, RelWai(s, t).0);
    case OpExtTsk => EndCpu(s, r, r);
    case OpTerTsk(t) => EndCpu(s, r, t);
    case OpChgPri(t, p) => ChgPriCpu(s, r, t, p);
    case OpAcreTsk(ipri, act) => AcreCpu(s, ipri, act, 0);
    case OpDelTsk(t) => AcreCpu(s, 0, false, t);
    case OpSlpTsk(tmo) => SleepCpu(s, r, tmo);
    case OpDlyTsk => SleepCpu(s, r, Pol);
    case OpSusTsk(t) => SuspendCpu(s, r, t);
    case OpRsmTsk(t) => SuspendCpu(s, r, t);
    case OpDisWai(t, texmask) => ForbidCpu(s, t, texmask);
    case OpEnaWai(t) => ForbidCpu(s, t, false);
    case OpDisDsp => EnableCpu(s, true);
    case OpEnaDsp => EnableCpu(s, true);
    case OpChgIpm(enaall) => EnableCpu(s, enaall);
    case OpRotRdq(p) => DispatchCpu(s, RotateReadyQueue(s, if p.None? then s.tcb[r].bpri else p.value));
  }

  lemma RequestCpu(s: State, t: Tid)
    requires Shape(s)
    ensures CpuOf(ActTsk(s, t).0) == CpuOf(WupTsk(s, t).0) == CpuOf(RelWai(s, t).0) == CpuOf(s)
    ensures ActTsk(s, t).1 != E_CTX && WupTsk(s, t).1 != E_CTX && RelWai(s, t).1 != E_CTX
  {
    hide MakeActive, Wake;
  }

  lemma EndCpu(s: State, r: Tid, t: Tid)
    requires Shape(s) && r < |s.tcb|
    ensures Settled(s, TerTsk(s, r, t).0) && TerTsk(s, r, t).1 != E_CTX
    ensures Settled(s.(disdsp := false, ipmflg := true, dspflg := true), ExtTsk(s, r).0) && ExtTsk(s, r).1 != E_CTX
  {
    hide Finish, Detach, MakeNonRunnable;
  }

  lemma ChgPriCpu(s: State, r: Tid, t: Tid, p: Option<Pri>)
    requires Shape(s) && r < |s.tcb|
    ensures Settled(s, ChgPri(s, r, t, p).0) && ChgPri(s, r, t, p).1 != E_CTX
  {
    hide ChangePriority, CheckCeilpri, ScanCeilmtx;
  }

  lemma AcreCpu(s: State, ipri: Pri, act: bool, t: Tid)
    requires Shape(s)
    ensures Settled(s, AcreTsk(s, ipri, act).0) && AcreTsk(s, ipri, act).1 != E_CTX
    ensures Settled(s, DelTsk(s, t).0) && DelTsk(s, t).1 != E_CTX
  {
    hide MakeActive, MakeDormant;
  }

  lemma SleepCpu(s: State, r: Tid, tmo: Tmo)
    requires Shape(s) && r < |s.tcb|
    ensures Settled(s, SlpTsk(s, r, tmo).0) && SlpTsk(s, r, tmo).1 != E_CTX
    ensures Settled(s, DlyTsk(s, r).0) && DlyTsk(s, r).1 != E_CTX
  {
    hide MakeWait;
  }

  lemma SuspendCpu(s: State, r: Tid, t: Tid)
    requires Shape(s)
    ensures Settled(s, SusTsk(s, r, t).0) && Settled(s, RsmTsk(s, t).0) && RsmTsk(s, t).1 != E_CTX
  {
    hide MakeNonRunnable, MakeActive, Settle, Settled;
    DispatchCpu(s, s);
    if t < |s.tcb| {
      var v := s.tcb[t];
      DispatchCpu(s, MakeActive(s, t));
      DispatchCpu(s, MakeNonRunnable(s.(tcb := s.tcb[t := v.(tstat := Suspended)]), t));
      if v.tstat.Waiting? {
        DispatchCpu(s, s.(tcb := s.tcb[t := v.(tstat := Waiting(true, v.tstat.on))]));
        DispatchCpu(s, s.(tcb := s.tcb[t := v.(tstat := Waiting(false, v.tstat.on))]));
      }
    }
  }

  lemma ForbidCpu(s: State, t: Tid, texmask: bool)
    requires Shape(s)
    ensures Settled(s, DisWai(s, t, texmask).0) && DisWai(s, t, texmask).1 != E_CTX
    ensures Settled(s, EnaWai(s, t).0) && EnaWai(s, t).1 != E_CTX
  {
  }

  lemma EnableCpu(s: State, enaall: bool)
    requires FlagsOk(s)
    ensures Settled(Unlocked(s, OpDisDsp), DisDsp(s)) && Settled(Unlocked(s, OpEnaDsp), EnaDsp(s))
    ensures Settled(Unlocked(s, OpChgIpm(enaall)), ChgIpm(s, enaall))
  {
  }
}
