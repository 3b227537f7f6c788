/** The kernel as a state machine over values.

    Pointers to control blocks are table indices: a task is its index in
    tcb_table, an object its index in the object tables (one table here), and a
    wait queue q is the first queue of object q when q < |inib| and the receive
    queue of data queue q - |inib| otherwise.

    There is no ready bitmap and no p_schedtsk in this state: the task to run is
    by definition the head of the highest non-empty ready queue.  Kernel.dfy keeps
    the bitmap and the cached task as the C code does and is proved to compute
    these functions. */
module KernelSpec {
  import opened Lists

  type Pri = p: int | 0 <= p < 16

  datatype Er =
    | E_OK | E_SYS | E_CTX | E_ID | E_PAR | E_ILUSE | E_OBJ | E_NOEXS | E_NOID
    | E_QOVR | E_RLWAI | E_TMOUT | E_DLT | E_OACV | E_MACV
    | Blocked  // the call has not returned: its result is the wercd it is woken with

  datatype WaitOn = Dly | Slp | Wobj(q: nat)

  datatype Tstat = Dormant | Runnable | Suspended | Waiting(susp: bool, on: WaitOn)

  /** Timeout argument: TMO_POL, TMO_FEVR or a positive time. */
  datatype Tmo = Pol | Fevr | After

  datatype Item = Item(data: int, pri: int)

  /** A task initialization block; dyn marks a task number above tmax_stskid, which
      only acre_tsk can bring into existence. */
  datatype Tinib = Tinib(dyn: bool, ipri: Pri, minpri: Pri)

  /** A task control block with the wait information block it points to. */
  datatype Tcb = Tcb(
    ini: Tinib, exs: bool, tstat: Tstat, bpri: Pri, pri: Pri,
    actque: bool, wupque: bool, waifbd: bool,
    held: seq<nat>,            // mutex_queue
    tmo: bool,                 // p_winfo->p_tmevtb is not NULL
    wercd: Er,                 // p_winfo->wercd
    waiptn: bv32, orw: bool, flgptn: bv32,  // event flag wait
    item: Item)                // data queue wait, memory block wait (item.data)

  datatype Proto = Null | Tpri | Ceiling(c: Pri)

  /** Initialization blocks: they never change. */
  datatype Inib =
    | SemInib(tpri: bool, isemcnt: nat, maxsem: nat)
    | FlgInib(tpri: bool, iflgptn: bv32, clr: bool, wmul: bool)
    | MtxInib(proto: Proto)
    | DtqInib(tpri: bool, dtqcnt: nat, prio: bool, maxdpri: int)  // prio: a priority data queue
    | MpfInib(tpri: bool, blkcnt: nat)

  /** Free and allocated blocks of a fixed pool: free list, never-used tail
      (unused and above), and the blocks handed out. */
  datatype Pool = Pool(fblkcnt: nat, unused: nat, free: seq<nat>, alloc: set<nat>)

  datatype Cb =
    | SemCb(semcnt: nat)
    | FlgCb(ptn: bv32)
    | MtxCb(loctsk: Option<Tid>)
    | DtqCb(items: seq<Item>)
    | MpfCb(pool: Pool)

  datatype State = State(
    tcb: seq<Tcb>,
    ready: seq<seq<Tid>>,
    run: Option<Tid>,
    intctx: bool, ipmflg: bool, disdsp: bool, dspflg: bool,
    wq: seq<seq<Tid>>,
    inib: seq<Inib>, objs: seq<Cb>,
    evts: set<Tid>,        // tasks whose time event block is in the event heap
    freeTcb: seq<Tid>)

  predicate SameKind(i: Inib, c: Cb) {
    match i
    case SemInib(_, _, _) => c.SemCb?
    case FlgInib(_, _, _, _) => c.FlgCb?
    case MtxInib(_) => c.MtxCb?
    case DtqInib(_, _, _, _) => c.DtqCb?
    case MpfInib(_, _) => c.MpfCb?
  }

  /** The TA_TPRI bit of the attribute, which TA_CEILING contains. */
  predicate ByPriority(i: Inib) {
    match i
    case MtxInib(proto) => !proto.Null?
    case SemInib(tpri, _, _) => tpri
    case FlgInib(tpri, _, _, _) => tpri
    case DtqInib(tpri, _, _, _) => tpri
    case MpfInib(tpri, _) => tpri
  }

  predicate IsMtx(s: State, o: nat) { o < |s.inib| && s.inib[o].MtxInib? }
  predicate IsSem(s: State, o: nat) { o < |s.inib| && s.inib[o].SemInib? }
  predicate IsFlg(s: State, o: nat) { o < |s.inib| && s.inib[o].FlgInib? }
  predicate IsDtq(s: State, o: nat) { o < |s.inib| && s.inib[o].DtqInib? }
  predicate IsMpf(s: State, o: nat) { o < |s.inib| && s.inib[o].MpfInib? }
  predicate IsCeil(inib: seq<Inib>, o: nat) {
    o < |inib| && inib[o].MtxInib? && inib[o].proto.Ceiling?
  }

  /** The table sizes and kinds that no operation changes. */
  ghost predicate Shape(s: State) {
    && |s.ready| == 16
    && |s.wq| == 2 * |s.inib|
    && |s.objs| == |s.inib|
    && forall o :: 0 <= o < |s.inib| ==> SameKind(s.inib[o], s.objs[o])
  }

  /** The part of the state that tells who has the processor. */
  datatype Cpu = Cpu(run: Option<Tid>, intctx: bool, ipmflg: bool, disdsp: bool, dspflg: bool)

  function CpuOf(s: State): Cpu {
    Cpu(s.run, s.intctx, s.ipmflg, s.disdsp, s.dspflg)
  }

  /** s1 has the tables of s. */
  ghost predicate SameTables(s: State, s1: State) {
    Shape(s1) && |s1.tcb| == |s.tcb| && s1.inib == s.inib
  }

  /** And the processor is where it was. */
  ghost predicate Keeps(s: State, s1: State) {
    SameTables(s, s1) && CpuOf(s1) == CpuOf(s)
  }

  // ---- task.c ------------------------------------------------------------------

  /** The task the C code calls p_schedtsk. */
  function Sched(s: State): Option<Tid> {
    Top(s.ready)
  }

  function MakeRunnable(s: State, t: Tid): State
    requires Shape(s) && t < |s.tcb|
    ensures Keeps(s, MakeRunnable(s, t))
  {
    var p := s.tcb[t].pri;
    s.(ready := s.ready[p := s.ready[p] + [t]])
  }

  function MakeNonRunnable(s: State, t: Tid): State
    requires Shape(s) && t < |s.tcb|
    ensures Keeps(s, MakeNonRunnable(s, t))
  {
    var p := s.tcb[t].pri;
    s.(ready := s.ready[p := Remove(s.ready[p], t)])
  }

  function MakeDormant(s: State, t: Tid): State
    requires Shape(s) && t < |s.tcb|
    ensures Keeps(s, MakeDormant(s, t))
  {
    var v := s.tcb[t];
    s.(tcb := s.tcb[t := v.(tstat := Dormant, bpri := v.ini.ipri, pri := v.ini.ipri,
                            wupque := false, waifbd := false)])
  }

  function MakeActive(s: State, t: Tid): State
    requires Shape(s) && t < |s.tcb|
    ensures Keeps(s, MakeActive(s, t))
  {
    MakeRunnable(s.(tcb := s.tcb[t := s.tcb[t].(tstat := Runnable)]), t)
  }

  /** queue_insert_tpri: before the first entry of lower urgency. */
  function InsertTpri(q: seq<Tid>, t: Tid, pri: Pri, tcb: seq<Tcb>): seq<Tid> {
    if q == [] then [t]
    else if q[0] < |tcb| && pri < tcb[q[0]].pri then [t] + q
    else [q[0]] + InsertTpri(q[1..], t, pri, tcb)
  }

  predicate TpriQueue(s: State, q: nat) {
    q < |s.inib| && ByPriority(s.inib[q])
  }

  /** wobj_queue_insert. */
  function Enqueue(s: State, q: nat, t: Tid): State
    requires Shape(s) && t < |s.tcb| && q < |s.wq|
    ensures Keeps(s, Enqueue(s, q, t))
  {
    s.(wq := s.wq[q := if TpriQueue(s, q) then InsertTpri(s.wq[q], t, s.tcb[t].pri, s.tcb)
                       else s.wq[q] + [t]])
  }

  predicate WaitsOn(v: Tcb, q: nat) {
    v.tstat.Waiting? && v.tstat.on == Wobj(q)
  }

  function ChangePriority(s: State, t: Tid, newpri: Pri, mtxmode: bool): State
    requires Shape(s) && t < |s.tcb|
    ensures Keeps(s, ChangePriority(s, t, newpri, mtxmode))
  {
    var v := s.tcb[t];
    var s1 := s.(tcb := s.tcb[t := v.(pri := newpri)]);
    if v.tstat.Runnable? then
      var r := s.ready[v.pri := Remove(s.ready[v.pri], t)];
      s1.(ready := r[newpri := if mtxmode then [t] + r[newpri] else r[newpri] + [t]])
    else if v.tstat.Waiting? && v.tstat.on.Wobj? && TpriQueue(s, v.tstat.on.q) then
      var q := v.tstat.on.q;
      Enqueue(s1.(wq := s1.wq[q := Remove(s1.wq[q], t)]), q, t)
    else s1
  }

  function RotateReadyQueue(s: State, p: Pri): State
    requires Shape(s)
    ensures Keeps(s, RotateReadyQueue(s, p))
  {
    if |s.ready[p]| > 1 then s.(ready := s.ready[p := s.ready[p][1..] + [s.ready[p][0]]]) else s
  }

  // ---- wait.c, wait.h ----------------------------------------------------------

  /** A task leaves the wait queue and the event heap its wait put it in:
      wait_dequeue_wobj and wait_dequeue_tmevtb. */
  function LeaveWaiting(s: State, t: Tid): State
    requires Shape(s) && t < |s.tcb| && s.tcb[t].tstat.Waiting?
    ensures Keeps(s, LeaveWaiting(s, t))
  {
    var v := s.tcb[t];
    s.(wq := if v.tstat.on.Wobj? && v.tstat.on.q < |s.wq|
             then s.wq[v.tstat.on.q := Remove(s.wq[v.tstat.on.q], t)] else s.wq,
       evts := if v.tmo then s.evts - {t} else s.evts)
  }

  function Woken(v: Tcb, er: Er): Tcb
    requires v.tstat.Waiting?
  {
    v.(wercd := er, tstat := if v.tstat.susp then Suspended else Runnable)
  }

  /** Every way a wait ends: completion, time-out, forced release, deletion. */
  function Wake(s: State, t: Tid, er: Er): State
    requires Shape(s) && t < |s.tcb| && s.tcb[t].tstat.Waiting?
    ensures Keeps(s, Wake(s, t, er))
  {
    var v := s.tcb[t];
    var s1 := LeaveWaiting(s, t);
    s1.(tcb := s.tcb[t := Woken(v, er)],
        ready := if v.tstat.susp then s.ready else s.ready[v.pri := s.ready[v.pri] + [t]])
  }

  /** make_wait and make_wait_tmout: the running task r leaves the ready queue. */
  function MakeWait(s: State, r: Tid, on: WaitOn, tmo: bool): State
    requires Shape(s) && r < |s.tcb|
    ensures Keeps(s, MakeWait(s, r, on, tmo))
  {
    var s1 := MakeNonRunnable(s, r);
    s1.(tcb := s1.tcb[r := s1.tcb[r].(tstat := Waiting(false, on), tmo := tmo)],
        evts := if tmo then s1.evts + {r} else s1.evts)
  }

  /** wobj_make_wait and wobj_make_wait_tmout. */
  function WobjMakeWait(s: State, r: Tid, q: nat, tmo: bool): State
    requires Shape(s) && r < |s.tcb| && q < |s.wq|
    ensures Keeps(s, WobjMakeWait(s, r, q, tmo))
  {
    Enqueue(MakeWait(s, r, Wobj(q), tmo), q, r)
  }

  /** init_wait_queue: every task of the list is released with E_DLT. */
  function WakeAll(s: State, ts: seq<Tid>): State
    requires Shape(s)
    ensures Keeps(s, WakeAll(s, ts))
    decreases |ts|
  {
    if ts == [] then s
    else if ts[0] < |s.tcb| && s.tcb[ts[0]].tstat.Waiting? then
      WakeAll(Wake(s, ts[0], E_DLT), ts[1..])
    else WakeAll(s, ts[1..])
  }

  /** dispatch(), where the code calls it: the running task becomes the task to
      run, unless dispatching is pending. */
  function Settle(s: State): State {
    if s.dspflg then s.(run := Sched(s)) else s
  }

  // ---- mutex.c -----------------------------------------------------------------

  function Ceil(inib: seq<Inib>, m: nat): Pri
    requires IsCeil(inib, m)
  {
    inib[m].proto.c
  }

  /** mutex_calc_priority: base priority, raised by every ceiling held. */
  function CalcPri(inib: seq<Inib>, bpri: Pri, held: seq<nat>): Pri {
    if held == [] then bpri
    else
      var p := CalcPri(inib, bpri, held[1..]);
      if IsCeil(inib, held[0]) && Ceil(inib, held[0]) < p then Ceil(inib, held[0]) else p
  }

  function SetHeld(s: State, t: Tid, held: seq<nat>): State
    requires t < |s.tcb|
  {
    s.(tcb := s.tcb[t := s.tcb[t].(held := held)])
  }

  function SetOwner(s: State, m: nat, owner: Option<Tid>): State
    requires Shape(s) && IsMtx(s, m)
    ensures Keeps(s, SetOwner(s, m, owner))
  {
    s.(objs := s.objs[m := MtxCb(owner)])
  }

  function RaisePriority(s: State, t: Tid, newpri: Pri): State
    requires Shape(s) && t < |s.tcb|
    ensures Keeps(s, RaisePriority(s, t, newpri))
  {
    if newpri < s.tcb[t].pri then ChangePriority(s, t, newpri, true) else s
  }

  function DropPriority(s: State, t: Tid, oldpri: Pri): State
    requires Shape(s) && t < |s.tcb|
    ensures Keeps(s, DropPriority(s, t, oldpri))
  {
    var v := s.tcb[t];
    var newpri := CalcPri(s.inib, v.bpri, v.held);
    if oldpri == v.pri && newpri != v.pri then ChangePriority(s, t, newpri, true) else s
  }

  function MutexAcquire(s: State, t: Tid, m: nat): State
    requires Shape(s) && t < |s.tcb| && IsMtx(s, m)
    ensures Keeps(s, MutexAcquire(s, t, m))
  {
    var s1 := SetHeld(SetOwner(s, m, Some(t)), t, [m] + s.tcb[t].held);
    if IsCeil(s.inib, m) then RaisePriority(s1, t, Ceil(s.inib, m)) else s1
  }

  /** The part of mutex_release that makes the head waiter t the new owner. */
  function Grant(s: State, m: nat, t: Tid): State
    requires Shape(s) && t < |s.tcb| && IsMtx(s, m)
    ensures Keeps(s, Grant(s, m, t))
  {
    var v := s.tcb[t];
    var pri := if IsCeil(s.inib, m) && Ceil(s.inib, m) < v.pri then Ceil(s.inib, m) else v.pri;
    SetOwner(s.(tcb := s.tcb[t := v.(held := v.held + [m], pri := pri)]), m, Some(t))
  }

  function MutexRelease(s: State, m: nat): State
    requires Shape(s) && IsMtx(s, m)
    ensures Keeps(s, MutexRelease(s, m))
  {
    if s.wq[m] == [] then SetOwner(s, m, None)
    else
      var t := s.wq[m][0];
      if t < |s.tcb| && s.tcb[t].tstat.Waiting? then Wake(Grant(s, m, t), t, E_OK) else s
  }

  /** mutex_release_all, where ms is what t still holds. */
  function ReleaseAll(s: State, t: Tid, ms: seq<nat>): State
    requires Shape(s) && t < |s.tcb|
    ensures Keeps(s, ReleaseAll(s, t, ms))
    decreases |ms|
  {
    if ms == [] || !IsMtx(s, ms[0]) then s
    else ReleaseAll(MutexRelease(SetHeld(s, t, ms[1..]), ms[0]), t, ms[1..])
  }

  predicate CeilOk(inib: seq<Inib>, bpri: Pri, m: nat) {
    IsCeil(inib, m) ==> Ceil(inib, m) <= bpri
  }

  /** mutex_check_ceilpri. */
  predicate CheckCeilpri(s: State, t: Tid, bpri: Pri)
    requires t < |s.tcb|
  {
    && (forall m :: m in s.tcb[t].held ==> CeilOk(s.inib, bpri, m))
    && (s.tcb[t].tstat.Waiting? && s.tcb[t].tstat.on.Wobj?
        ==> CeilOk(s.inib, bpri, s.tcb[t].tstat.on.q))
  }

  /** mutex_scan_ceilmtx. */
  predicate ScanCeilmtx(s: State, t: Tid)
    requires t < |s.tcb|
  {
    exists m :: m in s.tcb[t].held && IsCeil(s.inib, m)
  }

  function LocMtx(s: State, r: Tid, m: nat, tmo: Tmo): (State, Er)
    requires Shape(s) && r < |s.tcb|
  {
    if !IsMtx(s, m) then (s, E_ID)
    else if !CeilOk(s.inib, s.tcb[r].bpri, m) then (s, E_ILUSE)
    else if s.objs[m].loctsk == None then (MutexAcquire(s, r, m), E_OK)
    else if s.objs[m].loctsk == Some(r) then (s, E_OBJ)
    else if tmo == Pol then (s, E_TMOUT)
    else if s.tcb[r].waifbd then (s, E_RLWAI)
    else (Settle(WobjMakeWait(s, r, m, tmo == After)), Blocked)
  }

  /** m leaves the mutex list of t, whose priority drops if the ceiling of m made it. */
  function Unhold(s: State, t: Tid, m: nat): State
    requires Shape(s) && t < |s.tcb| && IsMtx(s, m)
    ensures Keeps(s, Unhold(s, t, m))
  {
    var s1 := SetHeld(s, t, Remove(s.tcb[t].held, m));
    if IsCeil(s.inib, m) then DropPriority(s1, t, Ceil(s.inib, m)) else s1
  }

  function UnlMtx(s: State, r: Tid, m: nat): (State, Er)
    requires Shape(s) && r < |s.tcb|
  {
    if !IsMtx(s, m) then (s, E_ID)
    else if s.objs[m].loctsk != Some(r) then (s, E_OBJ)
    else (Settle(MutexRelease(Unhold(s, r, m), m)), E_OK)
  }

  /** The owner of m is stripped of it; nobody is waiting. */
  function Strip(s: State, m: nat): State
    requires Shape(s) && IsMtx(s, m)
    ensures Keeps(s, Strip(s, m))
  {
    if s.objs[m].loctsk.None? || s.objs[m].loctsk.value >= |s.tcb| then s
    else SetOwner(Unhold(s, s.objs[m].loctsk.value, m), m, None)
  }

  function IniMtx(s: State, m: nat): (State, Er)
    requires Shape(s)
  {
    if !IsMtx(s, m) then (s, E_ID)
    else (Settle(Strip(WakeAll(s, s.wq[m]), m)), E_OK)
  }

  // ---- task_manage.c -----------------------------------------------------------

  function ActTsk(s: State, t: Tid): (State, Er)
    requires Shape(s)
  {
    if t >= |s.tcb| then (s, E_ID)
    else if !s.tcb[t].exs then (s, E_NOEXS)
    else if s.tcb[t].tstat.Dormant? then (MakeActive(s, t), E_OK)
    else if !s.tcb[t].actque then (s.(tcb := s.tcb[t := s.tcb[t].(actque := true)]), E_OK)
    else (s, E_QOVR)
  }

  /** Take t out of whatever queue and timer its state puts it in. */
  function Detach(s: State, t: Tid): State
    requires Shape(s) && t < |s.tcb|
    ensures Keeps(s, Detach(s, t))
  {
    var v := s.tcb[t];
    if v.tstat.Runnable? then MakeNonRunnable(s, t)
    else if v.tstat.Waiting? then LeaveWaiting(s, t)
    else s
  }

  /** A queued activation starts the dormant task t again. */
  function Restart(s: State, t: Tid): State
    requires Shape(s) && t < |s.tcb|
    ensures Keeps(s, Restart(s, t))
  {
    if s.tcb[t].actque then MakeActive(s.(tcb := s.tcb[t := s.tcb[t].(actque := false)]), t) else s
  }

  /** The end of a detached task: release its mutexes, become dormant, and start
      again when an activation was queued. */
  function Finish(s: State, t: Tid): State
    requires Shape(s) && t < |s.tcb|
    ensures Keeps(s, Finish(s, t))
  {
    Restart(MakeDormant(ReleaseAll(s, t, s.tcb[t].held), t), t)
  }

  function ExtTsk(s: State, r: Tid): (State, Er)
    requires Shape(s) && r < |s.tcb|
  {
    var s1 := s.(disdsp := false, ipmflg := true, dspflg := true);
    (Settle(Finish(MakeNonRunnable(s1, r), r)), Blocked)
  }

  function TerTsk(s: State, r: Tid, t: Tid): (State, Er)
    requires Shape(s)
  {
    if t >= |s.tcb| then (s, E_ID)
    else if t == r then (s, E_ILUSE)
    else if !s.tcb[t].exs then (s, E_NOEXS)
    else if s.tcb[t].tstat.Dormant? then (s, E_OBJ)
    else (Settle(Finish(Detach(s, t), t)), E_OK)
  }

  function ChgPri(s: State, r: Tid, t: Tid, tskpri: Option<Pri>): (State, Er)
    requires Shape(s) && r < |s.tcb|
  {
    if t >= |s.tcb| then (s, E_ID)
    else if !s.tcb[t].exs then (s, E_NOEXS)
    else if s.tcb[t].tstat.Dormant? then (s, E_OBJ)
    else
      var newb := if tskpri.None? then s.tcb[t].ini.ipri else tskpri.value;
      if newb < s.tcb[r].ini.minpri then (s, E_ILUSE)
      else if !CheckCeilpri(s, t, newb) then (s, E_ILUSE)
      else
        var s1 := s.(tcb := s.tcb[t := s.tcb[t].(bpri := newb)]);
        if ScanCeilmtx(s, t) then (s1, E_OK)
        else (Settle(ChangePriority(s1, t, newb, false)), E_OK)
  }

  /** The state part of acre_tsk: note that nothing is dispatched. */
  function AcreTsk(s: State, ipri: Pri, act: bool): (State, Er)
    requires Shape(s)
  {
    if s.freeTcb == [] then (s, E_NOID)
    else
      var t := s.freeTcb[0];
      if t >= |s.tcb| then (s, E_SYS)
      else
        var s1 := s.(freeTcb := s.freeTcb[1..],
                     tcb := s.tcb[t := s.tcb[t].(exs := true, ini := s.tcb[t].ini.(ipri := ipri), actque := false, held := [])]);
        var s2 := MakeDormant(s1, t);
        (if act then MakeActive(s2, t) else s2, E_OK)
  }

  function DelTsk(s: State, t: Tid): (State, Er)
    requires Shape(s)
  {
    if t >= |s.tcb| then (s, E_ID)
    else if !s.tcb[t].exs then (s, E_NOEXS)
    else if !(s.tcb[t].ini.dyn && s.tcb[t].tstat.Dormant?) then (s, E_OBJ)
    else (s.(tcb := s.tcb[t := s.tcb[t].(exs := false)], freeTcb := s.freeTcb + [t]), E_OK)
  }

  // ---- task_sync.c -------------------------------------------------------------

  function SlpTsk(s: State, r: Tid, tmo: Tmo): (State, Er)
    requires Shape(s) && r < |s.tcb|
  {
    if s.tcb[r].wupque then (s.(tcb := s.tcb[r := s.tcb[r].(wupque := false)]), E_OK)
    else if tmo == Pol then (s, E_TMOUT)
    else if s.tcb[r].waifbd then (s, E_RLWAI)
    else (Settle(MakeWait(s, r, Slp, tmo == After)), Blocked)
  }

  function DlyTsk(s: State, r: Tid): (State, Er)
    requires Shape(s) && r < |s.tcb|
  {
    if s.tcb[r].waifbd then (s, E_RLWAI) else (Settle(MakeWait(s, r, Dly, true)), Blocked)
  }

  function WupTsk(s: State, t: Tid): (State, Er)
    requires Shape(s)
  {
    if t >= |s.tcb| then (s, E_ID)
    else if !s.tcb[t].exs then (s, E_NOEXS)
    else if s.tcb[t].tstat.Dormant? then (s, E_OBJ)
    else if s.tcb[t].tstat.Waiting? && s.tcb[t].tstat.on == Slp then (Wake(s, t, E_OK), E_OK)
    else if !s.tcb[t].wupque then (s.(tcb := s.tcb[t := s.tcb[t].(wupque := true)]), E_OK)
    else (s, E_QOVR)
  }

  function RelWai(s: State, t: Tid): (State, Er)
    requires Shape(s)
  {
    if t >= |s.tcb| then (s, E_ID)
    else if !s.tcb[t].exs then (s, E_NOEXS)
    else if !s.tcb[t].tstat.Waiting? then (s, E_OBJ)
    else (Wake(s, t, E_RLWAI), E_OK)
  }

  function SusTsk(s: State, r: Tid, t: Tid): (State, Er)
    requires Shape(s)
  {
    if t >= |s.tcb| then (s, E_ID)
    else if t == r && !s.dspflg then (s, E_CTX)
    else if !s.tcb[t].exs then (s, E_NOEXS)
    else
      var v := s.tcb[t];
      match v.tstat
      case Dormant => (s, E_OBJ)
      case Runnable =>
        (Settle(MakeNonRunnable(s.(tcb := s.tcb[t := v.(tstat := Suspended)]), t)), E_OK)
      case Suspended => (s, E_QOVR)
      case Waiting(susp, on) =>
        if susp then (s, E_QOVR)
        else (s.(tcb := s.tcb[t := v.(tstat := Waiting(true, on))]), E_OK)
  }

  function RsmTsk(s: State, t: Tid): (State, Er)
    requires Shape(s)
  {
    if t >= |s.tcb| then (s, E_ID)
    else if !s.tcb[t].exs then (s, E_NOEXS)
    else
      var v := s.tcb[t];
      match v.tstat
      case Dormant => (s, E_OBJ)
      case Runnable => (s, E_OBJ)
      case Suspended => (Settle(MakeActive(s, t)), E_OK)
      case Waiting(susp, on) =>
        if !susp then (s, E_OBJ)
        else (s.(tcb := s.tcb[t := v.(tstat := Waiting(false, on))]), E_OK)
  }

  /** dis_wai; texmask says whether the task masks its exceptions. */
  function DisWai(s: State, t: Tid, texmask: bool): (State, Er)
    requires Shape(s)
  {
    if t >= |s.tcb| then (s, E_ID)
    else if !s.tcb[t].exs then (s, E_NOEXS)
    else if s.tcb[t].tstat.Dormant? then (s, E_OBJ)
    else if s.tcb[t].waifbd then (s, E_QOVR)
    else if texmask then (s.(tcb := s.tcb[t := s.tcb[t].(waifbd := true)]), E_OK)
    else (s, E_OBJ)
  }

  function EnaWai(s: State, t: Tid): (State, Er)
    requires Shape(s)
  {
    if t >= |s.tcb| then (s, E_ID)
    else if !s.tcb[t].exs then (s, E_NOEXS)
    else if s.tcb[t].tstat.Dormant? || !s.tcb[t].waifbd then (s, E_OBJ)
    else (s.(tcb := s.tcb[t := s.tcb[t].(waifbd := false)]), E_OK)
  }

  // ---- semaphore.c -------------------------------------------------------------

  function SigSem(s: State, o: nat): (State, Er)
    requires Shape(s)
  {
    if !IsSem(s, o) then (s, E_ID)
    else if s.wq[o] != [] then (WakeHead(s, o), E_OK)
    else if s.objs[o].semcnt < s.inib[o].maxsem then
      (s.(objs := s.objs[o := SemCb(s.objs[o].semcnt + 1)]), E_OK)
    else (s, E_QOVR)
  }

  /** queue_delete_next and wait_complete on the head of wait queue q. */
  function WakeHead(s: State, q: nat): State
    requires Shape(s) && q < |s.wq| && s.wq[q] != []
    ensures Keeps(s, WakeHead(s, q))
  {
    var t := s.wq[q][0];
    if t < |s.tcb| && s.tcb[t].tstat.Waiting? then Wake(s, t, E_OK) else s
  }

  function WaiSem(s: State, r: Tid, o: nat, tmo: Tmo): (State, Er)
    requires Shape(s) && r < |s.tcb|
  {
    if !IsSem(s, o) then (s, E_ID)
    else if s.objs[o].semcnt >= 1 then
      (s.(objs := s.objs[o := SemCb(s.objs[o].semcnt - 1)]), E_OK)
    else if tmo == Pol then (s, E_TMOUT)
    else if s.tcb[r].waifbd then (s, E_RLWAI)
    else (Settle(WobjMakeWait(s, r, o, tmo == After)), Blocked)
  }

  function IniSem(s: State, o: nat): (State, Er)
    requires Shape(s)
  {
    if !IsSem(s, o) then (s, E_ID)
    else
      var s1 := WakeAll(s, s.wq[o]);
      (Settle(s1.(objs := s1.objs[o := SemCb(s.inib[o].isemcnt)])), E_OK)
  }

  // ---- eventflag.c -------------------------------------------------------------

  /** The test of check_flg_cond. */
  predicate FlgCond(ptn: bv32, waiptn: bv32, orw: bool) {
    if orw then ptn & waiptn != 0 else ptn & waiptn == waiptn
  }

  function SetBits(ptn: bv32, setptn: bv32): bv32 {
    ptn | setptn
  }

  function ClearBits(ptn: bv32, clrptn: bv32): bv32 {
    ptn & clrptn
  }

  /** The walk of set_flg along the waiting tasks ts. */
  function FlgWalk(s: State, o: nat, ts: seq<Tid>): State
    requires Shape(s) && IsFlg(s, o)
    ensures Keeps(s, FlgWalk(s, o, ts))
    decreases |ts|
  {
    if ts == [] || ts[0] >= |s.tcb| || !s.tcb[ts[0]].tstat.Waiting? then s
    else
      var v := s.tcb[ts[0]];
      var ptn := s.objs[o].ptn;
      if FlgCond(ptn, v.waiptn, v.orw) then
        var s1 := s.(tcb := s.tcb[ts[0] := v.(flgptn := ptn)],
                     objs := s.objs[o := FlgCb(if s.inib[o].clr then 0 else ptn)]);
        var s2 := Wake(s1, ts[0], E_OK);
        if s.inib[o].clr then s2 else FlgWalk(s2, o, ts[1..])
      else FlgWalk(s, o, ts[1..])
  }

  function SetFlg(s: State, o: nat, setptn: bv32): (State, Er)
    requires Shape(s)
  {
    if !IsFlg(s, o) then (s, E_ID)
    else
      var s1 := s.(objs := s.objs[o := FlgCb(SetBits(s.objs[o].ptn, setptn))]);
      (FlgWalk(s1, o, s1.wq[o]), E_OK)
  }

  function ClrFlg(s: State, o: nat, clrptn: bv32): (State, Er)
    requires Shape(s)
  {
    if !IsFlg(s, o) then (s, E_ID)
    else (s.(objs := s.objs[o := FlgCb(ClearBits(s.objs[o].ptn, clrptn))]), E_OK)
  }

  /** check_flg_cond when the condition of the running task r holds: it gets the pattern,
      which is cleared with TA_CLR. */
  function TakePattern(s: State, r: Tid, o: nat): State
    requires Shape(s) && r < |s.tcb| && IsFlg(s, o)
    ensures Keeps(s, TakePattern(s, r, o))
  {
    s.(tcb := s.tcb[r := s.tcb[r].(flgptn := s.objs[o].ptn)],
       objs := s.objs[o := FlgCb(if s.inib[o].clr then 0 else s.objs[o].ptn)])
  }

  function WaiFlg(s: State, r: Tid, o: nat, waiptn: bv32, orw: bool, tmo: Tmo): (State, Er)
    requires Shape(s) && r < |s.tcb|
  {
    if !IsFlg(s, o) then (s, E_ID)
    else if waiptn == 0 then (s, E_PAR)
    else if !s.inib[o].wmul && s.wq[o] != [] then (s, E_ILUSE)
    else if FlgCond(s.objs[o].ptn, waiptn, orw) then
      (TakePattern(s, r, o), E_OK)
    else if tmo == Pol then (s, E_TMOUT)
    else if s.tcb[r].waifbd then (s, E_RLWAI)
    else
      var s1 := s.(tcb := s.tcb[r := s.tcb[r].(waiptn := waiptn, orw := orw)]);
      (Settle(WobjMakeWait(s1, r, o, tmo == After)), Blocked)
  }

  function IniFlg(s: State, o: nat): (State, Er)
    requires Shape(s)
  {
    if !IsFlg(s, o) then (s, E_ID)
    else
      var s1 := WakeAll(s, s.wq[o]);
      (Settle(s1.(objs := s1.objs[o := FlgCb(s.inib[o].iflgptn)])), E_OK)
  }

  // ---- dataqueue.c, pridataq.c -------------------------------------------------

  /** enqueue_pridata: after every item of the same or higher urgency. */
  function InsertItem(items: seq<Item>, it: Item): seq<Item> {
    if items == [] then [it]
    else if items[0].pri > it.pri then [it] + items
    else [items[0]] + InsertItem(items[1..], it)
  }

  function AddItem(prio: bool, items: seq<Item>, it: Item): seq<Item> {
    if prio then InsertItem(items, it) else items + [it]
  }

  /** The receive queue of data queue o. */
  function RcvQ(s: State, o: nat): nat {
    |s.inib| + o
  }

  function SetItem(s: State, t: Tid, it: Item): State
    requires t < |s.tcb|
  {
    s.(tcb := s.tcb[t := s.tcb[t].(item := it)])
  }

  function SetItems(s: State, o: nat, items: seq<Item>): State
    requires Shape(s) && IsDtq(s, o)
    ensures Keeps(s, SetItems(s, o, items))
  {
    s.(objs := s.objs[o := DtqCb(items)])
  }

  /** Hand it to the first task waiting to receive. */
  function HandOver(s: State, o: nat, it: Item): State
    requires Shape(s) && IsDtq(s, o) && s.wq[RcvQ(s, o)] != []
    ensures Keeps(s, HandOver(s, o, it))
  {
    var t := s.wq[RcvQ(s, o)][0];
    if t < |s.tcb| then WakeHead(SetItem(s, t, it), RcvQ(s, o)) else s
  }

  /** send_data and send_pridata; None when the data could not be sent. */
  function SendData(s: State, o: nat, it: Item): Option<State>
    requires Shape(s) && IsDtq(s, o)
  {
    if s.wq[RcvQ(s, o)] != [] then Some(HandOver(s, o, it))
    else if |s.objs[o].items| < s.inib[o].dtqcnt then
      Some(SetItems(s, o, AddItem(s.inib[o].prio, s.objs[o].items, it)))
    else None
  }

  /** force_enqueue_data on a data queue of capacity cap. */
  function ForceItem(items: seq<Item>, cap: nat, it: Item): seq<Item> {
    if |items| < cap then items + [it] else (items + [it])[1..]
  }

  /** force_send_data. */
  function ForceSendData(s: State, o: nat, it: Item): State
    requires Shape(s) && IsDtq(s, o)
    ensures Keeps(s, ForceSendData(s, o, it))
  {
    if s.wq[RcvQ(s, o)] != [] then HandOver(s, o, it)
    else SetItems(s, o, ForceItem(s.objs[o].items, s.inib[o].dtqcnt, it))
  }

  /** receive_data and receive_pridata; None when there was nothing to receive. */
  function ReceiveData(s: State, o: nat): Option<(State, Item)>
    requires Shape(s) && IsDtq(s, o)
  {
    var items := s.objs[o].items;
    if items != [] then
      if s.wq[o] != [] && s.wq[o][0] < |s.tcb| then
        var s1 := SetItems(s, o, AddItem(s.inib[o].prio, items[1..], s.tcb[s.wq[o][0]].item));
        Some((WakeHead(s1, o), items[0]))
      else Some((SetItems(s, o, items[1..]), items[0]))
    else if s.wq[o] != [] && s.wq[o][0] < |s.tcb| then
      Some((WakeHead(s, o), s.tcb[s.wq[o][0]].item))
    else None
  }

  /** The check of the data priority on a priority data queue. */
  predicate BadDataPri(i: Inib, it: Item)
    requires i.DtqInib?
  {
    i.prio && !(1 <= it.pri <= i.maxdpri)
  }

  function SndDtq(s: State, r: Tid, o: nat, it: Item, tmo: Tmo): (State, Er)
    requires Shape(s) && r < |s.tcb|
  {
    if !IsDtq(s, o) then (s, E_ID)
    else if BadDataPri(s.inib[o], it) then (s, E_PAR)
    else
      match SendData(s, o, it)
      case Some(s1) => (Settle(s1), E_OK)
      case None =>
        if tmo == Pol then (s, E_TMOUT)
        else if s.tcb[r].waifbd then (s, E_RLWAI)
        else (Settle(WobjMakeWait(SetItem(s, r, it), r, o, tmo == After)), Blocked)
  }

  function RcvDtq(s: State, r: Tid, o: nat, tmo: Tmo): (State, Er)
    requires Shape(s) && r < |s.tcb|
  {
    if !IsDtq(s, o) then (s, E_ID)
    else
      match ReceiveData(s, o)
      case Some(p) => (Settle(SetItem(p.0, r, p.1)), E_OK)
      case None =>
        if tmo == Pol then (s, E_TMOUT)
        else if s.tcb[r].waifbd then (s, E_RLWAI)
        else (Settle(WobjMakeWait(s, r, RcvQ(s, o), tmo == After)), Blocked)
  }

  /** fsnd_dtq: after a capacity error the code still returns E_OK. */
  function FsndDtq(s: State, o: nat, it: Item): (State, Er)
    requires Shape(s)
  {
    if !IsDtq(s, o) || s.inib[o].prio then (s, E_ID)
    else if s.inib[o].dtqcnt == 0 then (s, E_OK)
    else (ForceSendData(s, o, it), E_OK)
  }

  function IniDtq(s: State, o: nat): (State, Er)
    requires Shape(s)
  {
    if !IsDtq(s, o) then (s, E_ID)
    else
      var s1 := WakeAll(s, s.wq[o]);
      var s2 := WakeAll(s1, s1.wq[RcvQ(s1, o)]);
      (Settle(SetItems(s2, o, [])), E_OK)
  }

  // ---- mempfix.c ---------------------------------------------------------------

  /** The block get_mpf_block picks: the free list first, then the unused tail. */
  function NextBlock(p: Pool): nat {
    if p.free != [] then p.free[0] else p.unused
  }

  function GetBlock(p: Pool): Pool
    requires p.fblkcnt > 0
  {
    if p.free != [] then Pool(p.fblkcnt - 1, p.unused, p.free[1..], p.alloc + {p.free[0]})
    else Pool(p.fblkcnt - 1, p.unused + 1, p.free, p.alloc + {p.unused})
  }

  function RelBlock(p: Pool, b: nat): Pool {
    Pool(p.fblkcnt + 1, p.unused, [b] + p.free, p.alloc - {b})
  }

  function NewPool(blkcnt: nat): Pool {
    Pool(blkcnt, 0, [], {})
  }

  function GetMpf(s: State, r: Tid, o: nat, tmo: Tmo): (State, Er)
    requires Shape(s) && r < |s.tcb|
  {
    if !IsMpf(s, o) then (s, E_ID)
    else if s.objs[o].pool.fblkcnt > 0 then
      var p := s.objs[o].pool;
      (SetItem(s.(objs := s.objs[o := MpfCb(GetBlock(p))]), r, Item(NextBlock(p), 0)), E_OK)
    else if tmo == Pol then (s, E_TMOUT)
    else if s.tcb[r].waifbd then (s, E_RLWAI)
    else (Settle(WobjMakeWait(s, r, o, tmo == After)), Blocked)
  }

  /** rel_mpf of block number b; the address arithmetic is in DataArea.dfy. */
  function RelMpf(s: State, o: nat, b: nat): (State, Er)
    requires Shape(s)
  {
    if !IsMpf(s, o) then (s, E_ID)
    else if !(b < s.objs[o].pool.unused && b in s.objs[o].pool.alloc) then (s, E_PAR)
    else if s.wq[o] != [] && s.wq[o][0] < |s.tcb| then
      (Settle(WakeHead(SetItem(s, s.wq[o][0], Item(b, 0)), o)), E_OK)
    else (s.(objs := s.objs[o := MpfCb(RelBlock(s.objs[o].pool, b))]), E_OK)
  }

  function IniMpf(s: State, o: nat): (State, Er)
    requires Shape(s)
  {
    if !IsMpf(s, o) then (s, E_ID)
    else
      var s1 := WakeAll(s, s.wq[o]);
      (Settle(s1.(objs := s1.objs[o := MpfCb(NewPool(s.inib[o].blkcnt))])), E_OK)
  }

  // ---- sys_manage.c, interrupt.c -----------------------------------------------

  function DisDsp(s: State): State {
    s.(disdsp := true, dspflg := false)
  }

  function EnaDsp(s: State): State {
    var s1 := s.(disdsp := false);
    if s.ipmflg then Settle(s1.(dspflg := true)) else s1
  }

  function ChgIpm(s: State, enaall: bool): State {
    if enaall then
      var s1 := s.(ipmflg := true);
      if s.disdsp then s1 else Settle(s1.(dspflg := true))
    else s.(ipmflg := false, dspflg := false)
  }

  // ---- one step ----------------------------------------------------------------

  datatype ManageOp =
    | OpActTsk(t: Tid) | OpExtTsk | OpTerTsk(t: Tid) | OpChgPri(t: Tid, pri: Option<Pri>)
    | OpAcreTsk(ipri: Pri, act: bool) | OpDelTsk(t: Tid)
    | OpSlpTsk(tmo: Tmo) | OpDlyTsk | OpWupTsk(t: Tid) | OpRelWai(t: Tid)
    | OpSusTsk(t: Tid) | OpRsmTsk(t: Tid) | OpDisWai(t: Tid, texmask: bool) | OpEnaWai(t: Tid)
    | OpDisDsp | OpEnaDsp | OpChgIpm(enaall: bool) | OpRotRdq(p: Option<Pri>)  // None: TPRI_SELF

  datatype SyncOp =
    | OpLocMtx(o: nat, tmo: Tmo) | OpPlocMtx(o: nat) | OpUnlMtx(o: nat) | OpIniMtx(o: nat)
    | OpSigSem(o: nat) | OpWaiSem(o: nat, tmo: Tmo) | OpPolSem(o: nat) | OpIniSem(o: nat)
    | OpSetFlg(o: nat, ptn: bv32) | OpClrFlg(o: nat, ptn: bv32)
    | OpWaiFlg(o: nat, ptn: bv32, orw: bool, tmo: Tmo) | OpPolFlg(o: nat, ptn: bv32, orw: bool)
    | OpIniFlg(o: nat)

  datatype DataOp =
    | OpSndDtq(o: nat, it: Item, tmo: Tmo) | OpPsndDtq(o: nat, it: Item) | OpFsndDtq(o: nat, it: Item)
    | OpRcvDtq(o: nat, tmo: Tmo) | OpPrcvDtq(o: nat) | OpIniDtq(o: nat)
    | OpGetMpf(o: nat, tmo: Tmo) | OpPgetMpf(o: nat) | OpRelMpf(o: nat, b: nat) | OpIniMpf(o: nat)

  /** Calls of interrupt handlers, and the tick finding a task's time-out due. */
  datatype IntOp =
    | OpIntExit
    | OpIActTsk(t: Tid) | OpIWupTsk(t: Tid) | OpIRelWai(t: Tid) | OpIRotRdq(p: Pri)
    | OpISigSem(o: nat) | OpISetFlg(o: nat, ptn: bv32)
    | OpIpsndDtq(o: nat, it: Item) | OpIfsndDtq(o: nat, it: Item)
    | OpTimeout(t: Tid)

  datatype Op = Manage(m: ManageOp) | Sync(y: SyncOp) | Data(d: DataOp) | Int(i: IntOp) | IntEnter

  /** The calls that may block check that dispatching is not pending. */
  predicate MayBlock(op: Op) {
    match op
    case Manage(m) => m.OpSlpTsk? || m.OpDlyTsk?
    case Sync(y) => y.OpLocMtx? || y.OpWaiSem? || y.OpWaiFlg?
    case Data(d) => d.OpSndDtq? || d.OpRcvDtq? || d.OpGetMpf?
    case Int(_) => false
    case IntEnter => false
  }

  function Then(p: (State, Er)): (State, Er) {
    (Settle(p.0), p.1)
  }

  /** A call made in the wrong context returns E_CTX and changes nothing. */
  function Step(s: State, op: Op): (State, Er)
    requires Shape(s)
  {
    if op.IntEnter? then (s.(intctx := true), E_OK)
    else if op.Int? then
      if !s.intctx then (s, E_CTX) else IntStep(s, op.i)
    else if s.intctx || s.run.None? || s.run.value >= |s.tcb| || (MayBlock(op) && !s.dspflg)
    then (s, E_CTX)
    else
      match op
      case Manage(m) => ManageStep(s, s.run.value, m)
      case Sync(y) => SyncStep(s, s.run.value, y)
      case Data(d) => DataStep(s, s.run.value, d)
  }

  function IntStep(s: State, op: IntOp): (State, Er)
    requires Shape(s)
  {
    match op
    case OpIntExit => (Settle(s.(intctx := false)), E_OK)
    case OpIActTsk(t) => ActTsk(s, t)
    case OpIWupTsk(t) => WupTsk(s, t)
    case OpIRelWai(t) => RelWai(s, t)
    case OpIRotRdq(p) => (RotateReadyQueue(s, p), E_OK)
    case OpISigSem(o) => SigSem(s, o)
    case OpISetFlg(o, ptn) => SetFlg(s, o, ptn)
    case OpIpsndDtq(o, it) =>
      if !IsDtq(s, o) then (s, E_ID)
      else if BadDataPri(s.inib[o], it) then (s, E_PAR)
      else (match SendData(s, o, it) case Some(s1) => (s1, E_OK) case None => (s, E_TMOUT))
    case OpIfsndDtq(o, it) => FsndDtq(s, o, it)
    case OpTimeout(t) =>
      // the tick found the event block of task t due: wait_tmout or wait_tmout_ok
      if t in s.evts && t < |s.tcb| && s.tcb[t].tstat.Waiting? then
        (Wake(s, t, if s.tcb[t].tstat.on == Dly then E_OK else E_TMOUT), E_OK)
      else (s, E_OK)
  }

  function ManageStep(s: State, r: Tid, op: ManageOp): (State, Er)
    requires Shape(s) && r < |s.tcb|
  {
    match op
    case OpActTsk(t) => Then(ActTsk(s, t))
    case OpExtTsk => ExtTsk(s, r)
    case OpTerTsk(t) => TerTsk(s, r, t)
    case OpChgPri(t, p) => ChgPri(s, r, t, p)
    case OpAcreTsk(p, act) => AcreTsk(s, p, act)
    case OpDelTsk(t) => DelTsk(s, t)
    case OpSlpTsk(tmo) => SlpTsk(s, r, tmo)
    case OpDlyTsk => DlyTsk(s, r)
    case OpWupTsk(t) => Then(WupTsk(s, t))
    case OpRelWai(t) => Then(RelWai(s, t))
    case OpSusTsk(t) => SusTsk(s, r, t)
    case OpRsmTsk(t) => RsmTsk(s, t)
    case OpDisWai(t, texmask) => DisWai(s, t, texmask)
    case OpEnaWai(t) => EnaWai(s, t)
    case OpDisDsp => (DisDsp(s), E_OK)
    case OpEnaDsp => (EnaDsp(s), E_OK)
    case OpChgIpm(enaall) => (ChgIpm(s, enaall), E_OK)
    case OpRotRdq(p) => (Settle(RotateReadyQueue(s, if p.None? then s.tcb[r].bpri else p.value)), E_OK)
  }

  function SyncStep(s: State, r: Tid, op: SyncOp): (State, Er)
    requires Shape(s) && r < |s.tcb|
  {
    match op
    case OpLocMtx(o, tmo) => LocMtx(s, r, o, tmo)
    case OpPlocMtx(o) => LocMtx(s, r, o, Pol)
    case OpUnlMtx(o) => UnlMtx(s, r, o)
    case OpIniMtx(o) => IniMtx(s, o)
    case OpSigSem(o) => Then(SigSem(s, o))
    case OpWaiSem(o, tmo) => WaiSem(s, r, o, tmo)
    case OpPolSem(o) => WaiSem(s, r, o, Pol)
    case OpIniSem(o) => IniSem(s, o)
    case OpSetFlg(o, ptn) => Then(SetFlg(s, o, ptn))
    case OpClrFlg(o, ptn) => ClrFlg(s, o, ptn)
    case OpWaiFlg(o, ptn, orw, tmo) => WaiFlg(s, r, o, ptn, orw, tmo)
    case OpPolFlg(o, ptn, orw) => WaiFlg(s, r, o, ptn, orw, Pol)
    case OpIniFlg(o) => IniFlg(s, o)
  }

  function DataStep(s: State, r: Tid, op: DataOp): (State, Er)
    requires Shape(s) && r < |s.tcb|
  {
    match op
    case OpSndDtq(o, it, tmo) => SndDtq(s, r, o, it, tmo)
    case OpPsndDtq(o, it) => SndDtq(s, r, o, it, Pol)
    case OpFsndDtq(o, it) => Then(FsndDtq(s, o, it))
    case OpRcvDtq(o, tmo) => RcvDtq(s, r, o, tmo)
    case OpPrcvDtq(o) => RcvDtq(s, r, o, Pol)
    case OpIniDtq(o) => IniDtq(s, o)
    case OpGetMpf(o, tmo) => GetMpf(s, r, o, tmo)
    case OpPgetMpf(o) => GetMpf(s, r, o, Pol)
    case OpRelMpf(o, b) => RelMpf(s, o, b)
    case OpIniMpf(o) => IniMpf(s, o)
  }

  /** acre_tsk with TA_ACT makes a task that should take the processor from the running
      one, but does not dispatch it. */
  predicate Preempts(s: State, ipri: Pri) {
    && s.dspflg && s.freeTcb != []
    && s.run.Some? && s.run.value < |s.tcb| && ipri < s.tcb[s.run.value].pri
  }

  predicate Admits(s: State, op: Op) {
    op.Manage? && op.m.OpAcreTsk? && op.m.act ==> !Preempts(s, op.m.ipri)
  }
}
