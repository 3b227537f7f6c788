/** The state transitions of tasks: for any call, interrupt or tick and any task, its state
    afterwards, and the requests, permissions and base priority recorded with it. */
module KernelStates {
  import opened Lists
  import opened KernelSpec
  import opened KernelInv
  import opened KernelKeeps
  import opened KernelMutex
  import opened KernelTasks
  import opened KernelWaits
  import opened KernelEnds

  // ---- the books ------------------------------------------------------------------------------

  /** What the kernel keeps of a task between calls, apart from its wait: whether it exists,
      its initial and base priority, queued activation, queued wake-up, and whether it may
      not wait. */
  datatype Book = Book(exs: bool, ipri: Pri, bpri: Pri, actque: bool, wupque: bool, waifbd: bool)

  function BookOf(v: Tcb): Book {
    Book(v.exs, v.ini.ipri, v.bpri, v.actque, v.wupque, v.waifbd)
  }

  /** A task as it starts: nothing requested, nothing forbidden, the initial priority. */
  function Fresh(ipri: Pri): Book {
    Book(true, ipri, ipri, false, false, false)
  }

  /** The call ends task t: ext_tsk by it or ter_tsk of it. */
  predicate Ends(s: State, op: Op, er: Er, t: Tid) {
    op.Manage? && ((op.m.OpExtTsk? && er == Blocked && s.run == Some(t)) || (op.m == OpTerTsk(t) && er == E_OK))
  }

  predicate Creates(s: State, op: Op, er: Er, t: Tid) {
    op.Manage? && op.m.OpAcreTsk? && er == E_OK && s.freeTcb != [] && s.freeTcb[0] == t
  }

  /** The books after the call, by what it was and what it returned. */
  function NextBook(s: State, op: Op, er: Er, t: Tid): Book
    requires t < |s.tcb|
  {
    var v := s.tcb[t];
    var b := BookOf(v);
    if Ends(s, op, er, t) then Fresh(b.ipri)
    else if Creates(s, op, er, t) then Fresh(op.m.ipri)
    else if er != E_OK then b
    else if op == Manage(OpActTsk(t)) || op == Int(OpIActTsk(t)) then
      if v.tstat.Dormant? then b else b.(actque := true)
    else if op == Manage(OpWupTsk(t)) || op == Int(OpIWupTsk(t)) then
      if v.tstat.Waiting? && v.tstat.on == Slp then b else b.(wupque := true)
    else if op.Manage? && op.m.OpSlpTsk? && s.run == Some(t) then b.(wupque := false)
    else if op.Manage? && op.m.OpDisWai? && op.m.t == t then b.(waifbd := true)
    else if op == Manage(OpEnaWai(t)) then b.(waifbd := false)
    else if op.Manage? && op.m.OpChgPri? && op.m.t == t then
      b.(bpri := if op.m.pri.None? then b.ipri else op.m.pri.value)
    else if op == Manage(OpDelTsk(t)) then b.(exs := false)
    else b
  }

  // ---- the states -----------------------------------------------------------------------------

  predicate Toggles(op: Op, er: Er, t: Tid) {
    er == E_OK && (op == Manage(OpSusTsk(t)) || op == Manage(OpRsmTsk(t)))
  }

  /** The state after the call. */
  ghost function NextState(s: State, op: Op, er: Er, t: Tid): Tstat
    requires Shape(s) && t < |s.tcb|
  {
    var st := s.tcb[t].tstat;
    if Ends(s, op, er, t) then (if s.tcb[t].actque then Runnable else Dormant)
    else
      match st
      case Dormant =>
        if (er == E_OK && (op == Manage(OpActTsk(t)) || op == Int(OpIActTsk(t))))
           || (Creates(s, op, er, t) && op.m.act) then Runnable
        else Dormant
      case Runnable =>
        if Toggles(op, er, t) then Suspended
        else if er == Blocked && s.run == Some(t) && Limit(op).Some? then Waiting(false, Place(s, op))
        else Runnable
      case Suspended => if Toggles(op, er, t) then Runnable else Suspended
      case Waiting(susp, on) =>
        if EndOf(s, op, t).Some? then (if susp then Suspended else Runnable)
        else if Toggles(op, er, t) then Waiting(!susp, on)
        else st
  }

  // ---- steps that leave books and states alone ----------------------------------------------------

  /** The books are as they were, and so is every task that was not waiting. */
  ghost predicate Steady(s: State, s1: State) {
    && |s1.tcb| == |s.tcb|
    && forall t :: 0 <= t < |s.tcb| ==>
         && BookOf(s1.tcb[t]) == BookOf(s.tcb[t])
         && (!s.tcb[t].tstat.Waiting? ==> s1.tcb[t].tstat == s.tcb[t].tstat)
  }

  lemma SteadyThen(s: State, s1: State, s2: State)
    requires Steady(s, s1) && Steady(s1, s2)
    ensures Steady(s, s2)
  {
  }

  lemma SteadySame(s: State, s1: State)
    requires s1.tcb == s.tcb
    ensures Steady(s, s1)
  {
  }

  lemma SteadySettle(s: State, s1: State)
    requires Steady(s, s1)
    ensures Steady(s, Settle(s1))
  {
  }

  /** One task is rewritten. */
  lemma SteadyOne(s: State, s1: State, u: Tid, v: Tcb)
    requires u < |s.tcb| && s1.tcb == s.tcb[u := v] && BookOf(v) == BookOf(s.tcb[u])
    requires !s.tcb[u].tstat.Waiting? ==> v.tstat == s.tcb[u].tstat
    ensures Steady(s, s1)
  {
  }

  lemma SteadyWake(s: State, u: Tid, er: Er)
    requires Shape(s) && u < |s.tcb| && s.tcb[u].tstat.Waiting?
    ensures Steady(s, Wake(s, u, er))
  {
    hide Remove;
  }

  lemma SteadyHead(s: State, q: nat)
    requires Shape(s) && q < |s.wq| && s.wq[q] != []
    ensures Steady(s, WakeHead(s, q))
  {
    hide Wake, Steady;
    SteadySame(s, s);
    if s.wq[q][0] < |s.tcb| && s.tcb[s.wq[q][0]].tstat.Waiting? {
      SteadyWake(s, s.wq[q][0], E_OK);
    }
  }

  lemma {:induction false} SteadyAll(s: State, ts: seq<Tid>)
    requires Shape(s)
    ensures Steady(s, WakeAll(s, ts))
    decreases |ts|
  {
    hide Wake, Steady;
    SteadySame(s, s);
    if ts != [] {
      if ts[0] < |s.tcb| && s.tcb[ts[0]].tstat.Waiting? {
        SteadyWake(s, ts[0], E_DLT);
        SteadyAll(Wake(s, ts[0], E_DLT), ts[1..]);
        SteadyThen(s, Wake(s, ts[0], E_DLT), WakeAll(s, ts));
      } else {
        SteadyAll(s, ts[1..]);
      }
    }
  }

  lemma SteadyChange(s: State, u: Tid, newpri: Pri, mtxmode: bool)
    requires Shape(s) && u < |s.tcb|
    ensures Steady(s, ChangePriority(s, u, newpri, mtxmode))
  {
    hide ChangePriority;
    ChangeForm(s, u, newpri, mtxmode);
  }

  lemma SteadyHeld(s: State, u: Tid, held: seq<nat>)
    requires u < |s.tcb|
    ensures Steady(s, SetHeld(s, u, held))
  {
  }

  lemma SteadyItem(s: State, u: Tid, it: Item)
    requires u < |s.tcb|
    ensures Steady(s, SetItem(s, u, it))
  {
  }

  lemma SteadyAcquire(s: State, r: Tid, m: nat)
    requires Shape(s) && r < |s.tcb| && IsMtx(s, m)
    ensures Steady(s, MutexAcquire(s, r, m))
  {
    hide Steady, ChangePriority;
    var s0 := SetOwner(s, m, Some(r));
    var s1 := SetHeld(s0, r, [m] + s.tcb[r].held);
    SteadySame(s, s0);
    SteadyHeld(s0, r, [m] + s.tcb[r].held);
    SteadyThen(s, s0, s1);
    if IsCeil(s.inib, m) && Ceil(s.inib, m) < s1.tcb[r].pri {
      SteadyChange(s1, r, Ceil(s.inib, m), true);
      SteadyThen(s, s1, MutexAcquire(s, r, m));
    }
  }

  lemma SteadyUnhold(s: State, u: Tid, m: nat)
    requires Shape(s) && u < |s.tcb| && IsMtx(s, m)
    ensures Steady(s, Unhold(s, u, m))
  {
    hide Steady, ChangePriority, CalcPri;
    var s1 := SetHeld(s, u, Remove(s.tcb[u].held, m));
    var pri := CalcPri(s1.inib, s1.tcb[u].bpri, s1.tcb[u].held);
    SteadyHeld(s, u, Remove(s.tcb[u].held, m));
    SteadyChange(s1, u, pri, true);
    SteadyThen(s, s1, ChangePriority(s1, u, pri, true));
  }

  lemma SteadyRelease(s: State, m: nat)
    requires Shape(s) && IsMtx(s, m)
    ensures Steady(s, MutexRelease(s, m))
  {
    hide Steady, Wake;
    SteadySame(s, s);
    SteadySame(s, SetOwner(s, m, None));
    if s.wq[m] != [] && s.wq[m][0] < |s.tcb| && s.tcb[s.wq[m][0]].tstat.Waiting? {
      var t := s.wq[m][0];
      SteadyGrant(s, m, t);
      SteadyWake(Grant(s, m, t), t, E_OK);
      SteadyThen(s, Grant(s, m, t), MutexRelease(s, m));
    }
  }

  lemma SteadyGrant(s: State, m: nat, t: Tid)
    requires Shape(s) && t < |s.tcb| && IsMtx(s, m)
    ensures Steady(s, Grant(s, m, t)) && Grant(s, m, t).tcb[t].tstat == s.tcb[t].tstat
  {
  }

  lemma {:induction false} SteadyReleaseAll(s: State, u: Tid, ms: seq<nat>)
    requires Shape(s) && u < |s.tcb|
    ensures Steady(s, ReleaseAll(s, u, ms))
    decreases |ms|
  {
    hide Steady, MutexRelease;
    SteadySame(s, s);
    if ms != [] && IsMtx(s, ms[0]) {
      var s1 := SetHeld(s, u, ms[1..]);
      var s2 := MutexRelease(s1, ms[0]);
      SteadyHeld(s, u, ms[1..]);
      SteadyRelease(s1, ms[0]);
      SteadyThen(s, s1, s2);
      SteadyReleaseAll(s2, u, ms[1..]);
      SteadyThen(s, s2, ReleaseAll(s, u, ms));
    }
  }

  lemma SteadyStrip(s: State, m: nat)
    requires Shape(s) && IsMtx(s, m)
    ensures Steady(s, Strip(s, m))
  {
    hide Steady, Unhold;
    SteadySame(s, s);
    if s.objs[m].loctsk.Some? && s.objs[m].loctsk.value < |s.tcb| {
      var s1 := Unhold(s, s.objs[m].loctsk.value, m);
      SteadyUnhold(s, s.objs[m].loctsk.value, m);
      SteadySame(s1, SetOwner(s1, m, None));
      SteadyThen(s, s1, SetOwner(s1, m, None));
    }
  }

  lemma {:induction false} SteadyWalk(s: State, o: nat, ts: seq<Tid>)
    requires Shape(s) && IsFlg(s, o)
    ensures Steady(s, FlgWalk(s, o, ts))
    decreases |ts|
  {
    hide Steady, Wake, FlgCond;
    SteadySame(s, s);
    if ts != [] && ts[0] < |s.tcb| && s.tcb[ts[0]].tstat.Waiting? {
      var v, ptn := s.tcb[ts[0]], s.objs[o].ptn;
      if FlgCond(ptn, v.waiptn, v.orw) {
        var s1 := s.(tcb := s.tcb[ts[0] := v.(flgptn := ptn)],
                     objs := s.objs[o := FlgCb(if s.inib[o].clr then 0 else ptn)]);
        var s2 := Wake(s1, ts[0], E_OK);
        SteadyOne(s, s1, ts[0], v.(flgptn := ptn));
        SteadyWake(s1, ts[0], E_OK);
        SteadyThen(s, s1, s2);
        SteadyWalk(s2, o, ts[1..]);
        SteadyThen(s, s2, FlgWalk(s2, o, ts[1..]));
      } else {
        SteadyWalk(s, o, ts[1..]);
      }
    }
  }

  /** Handing data or a block to the first task of a queue. */
  lemma SteadyGive(s: State, q: nat, it: Item)
    requires Shape(s) && q < |s.wq| && s.wq[q] != [] && s.wq[q][0] < |s.tcb|
    ensures Shape(SetItem(s, s.wq[q][0], it)) && Steady(s, WakeHead(SetItem(s, s.wq[q][0], it), q))
  {
    hide Steady, WakeHead;
    var s1 := SetItem(s, s.wq[q][0], it);
    SteadyItem(s, s.wq[q][0], it);
    SteadyHead(s1, q);
    SteadyThen(s, s1, WakeHead(s1, q));
  }

  lemma SteadySend(s: State, o: nat, it: Item)
    requires Shape(s) && IsDtq(s, o)
    ensures SendData(s, o, it).Some? ==> Steady(s, SendData(s, o, it).value)
    ensures Steady(s, ForceSendData(s, o, it))
  {
    hide Steady, WakeHead, AddItem, ForceItem;
    SteadySame(s, s);
    SteadySame(s, SetItems(s, o, AddItem(s.inib[o].prio, s.objs[o].items, it)));
    SteadySame(s, SetItems(s, o, ForceItem(s.objs[o].items, s.inib[o].dtqcnt, it)));
    if s.wq[RcvQ(s, o)] != [] && s.wq[RcvQ(s, o)][0] < |s.tcb| {
      SteadyGive(s, RcvQ(s, o), it);
    }
  }

  lemma SteadyReceive(s: State, o: nat)
    requires Shape(s) && IsDtq(s, o)
    ensures ReceiveData(s, o).Some? ==> Steady(s, ReceiveData(s, o).value.0)
  {
    hide Steady, WakeHead, AddItem;
    var items := s.objs[o].items;
    if items != [] {
      SteadySame(s, SetItems(s, o, items[1..]));
    }
    if s.wq[o] != [] && s.wq[o][0] < |s.tcb| {
      SteadyHead(s, o);
      if items != [] {
        var s1 := SetItems(s, o, AddItem(s.inib[o].prio, items[1..], s.tcb[s.wq[o][0]].item));
        SteadySame(s, s1);
        SteadyHead(s1, o);
        SteadyThen(s, s1, WakeHead(s1, o));
      }
    }
  }

  // ---- calls on objects -------------------------------------------------------------------------

  lemma SteadySync(s: State, r: Tid, y: SyncOp)
    requires Shape(s) && r < |s.tcb| && SyncStep(s, r, y).1 != Blocked
    ensures Steady(s, SyncStep(s, r, y).0)
  {
    hide Steady, MutexAcquire, Unhold, MutexRelease, Strip, WakeAll, FlgWalk, WakeHead, WobjMakeWait, Settle, FlgCond, SetBits;
    SteadySame(s, s);
    match y
    case OpLocMtx(o, tmo) => if IsMtx(s, o) { SteadyAcquire(s, r, o); }
    case OpPlocMtx(o) => if IsMtx(s, o) { SteadyAcquire(s, r, o); }
    case OpUnlMtx(o) => SteadyUnlock(s, r, o);
    case OpIniMtx(o) => SteadyIniMtx(s, o);
    case OpSigSem(o) => SteadySig(s, o); SteadySettle(s, SigSem(s, o).0);
    case OpWaiSem(o, tmo) => if IsSem(s, o) && s.objs[o].semcnt >= 1 { SteadySame(s, WaiSem(s, r, o, tmo).0); }
    case OpPolSem(o) => if IsSem(s, o) && s.objs[o].semcnt >= 1 { SteadySame(s, WaiSem(s, r, o, Pol).0); }
    case OpIniSem(o) => if IsSem(s, o) { SteadyIni(s, o, SemCb(s.inib[o].isemcnt)); }
    case OpSetFlg(o, ptn) => SteadySetFlg(s, o, ptn); SteadySettle(s, SetFlg(s, o, ptn).0);
    case OpClrFlg(o, ptn) => SteadySame(s, ClrFlg(s, o, ptn).0);
    case OpWaiFlg(o, w, orw, tmo) => if IsFlg(s, o) { SteadyTake(s, r, o); }
    case OpPolFlg(o, w, orw) => if IsFlg(s, o) { SteadyTake(s, r, o); }
    case OpIniFlg(o) => if IsFlg(s, o) { SteadyIni(s, o, FlgCb(s.inib[o].iflgptn)); }
  }

  lemma SteadyUnlock(s: State, r: Tid, m: nat)
    requires Shape(s) && r < |s.tcb|
    ensures Steady(s, UnlMtx(s, r, m).0)
  {
    hide Steady, Unhold, MutexRelease, Settle;
    SteadySame(s, s);
    if IsMtx(s, m) {
      var s1 := Unhold(s, r, m);
      SteadyUnhold(s, r, m);
      SteadyRelease(s1, m);
      SteadyThen(s, s1, MutexRelease(s1, m));
      SteadySettle(s, MutexRelease(s1, m));
    }
  }

  lemma SteadyIniMtx(s: State, m: nat)
    requires Shape(s)
    ensures Steady(s, IniMtx(s, m).0)
  {
    hide Steady, WakeAll, Strip, Settle;
    SteadySame(s, s);
    if IsMtx(s, m) {
      var s1 := WakeAll(s, s.wq[m]);
      SteadyAll(s, s.wq[m]);
      SteadyStrip(s1, m);
      SteadyThen(s, s1, Strip(s1, m));
      SteadySettle(s, Strip(s1, m));
    }
  }

  lemma SteadySig(s: State, o: nat)
    requires Shape(s)
    ensures Steady(s, SigSem(s, o).0)
  {
    hide Steady, WakeHead;
    SteadySame(s, s);
    if IsSem(s, o) {
      SteadySame(s, s.(objs := s.objs[o := SemCb(s.objs[o].semcnt + 1)]));
      if s.wq[o] != [] {
        SteadyHead(s, o);
      }
    }
  }

  lemma SteadySetFlg(s: State, o: nat, ptn: bv32)
    requires Shape(s)
    ensures Steady(s, SetFlg(s, o, ptn).0)
  {
    hide Steady, FlgWalk, SetBits;
    SteadySame(s, s);
    if IsFlg(s, o) {
      var s1 := s.(objs := s.objs[o := FlgCb(SetBits(s.objs[o].ptn, ptn))]);
      SteadySame(s, s1);
      SteadyWalk(s1, o, s1.wq[o]);
      SteadyThen(s, s1, FlgWalk(s1, o, s1.wq[o]));
    }
  }

  lemma SteadyTake(s: State, r: Tid, o: nat)
    requires Shape(s) && r < |s.tcb| && IsFlg(s, o)
    ensures Steady(s, TakePattern(s, r, o))
  {
  }

  /** The initialization of an object with one wait queue. */
  lemma SteadyIni(s: State, o: nat, cb: Cb)
    requires Shape(s) && o < |s.inib|
    ensures Steady(s, Settle(WakeAll(s, s.wq[o]).(objs := WakeAll(s, s.wq[o]).objs[o := cb])))
  {
    hide Steady, WakeAll, Settle;
    var s1 := WakeAll(s, s.wq[o]);
    var s2 := s1.(objs := s1.objs[o := cb]);
    SteadyAll(s, s.wq[o]);
    SteadySame(s1, s2);
    SteadyThen(s, s1, s2);
    SteadySettle(s, s2);
  }

  lemma SteadyData(s: State, r: Tid, d: DataOp)
    requires Shape(s) && r < |s.tcb| && DataStep(s, r, d).1 != Blocked
    ensures Steady(s, DataStep(s, r, d).0)
  {
    hide Steady, SndDtq, RcvDtq, FsndDtq, IniDtq, GetMpf, RelMpf, WakeAll, Settle;
    SteadySame(s, s);
    match d
    case OpSndDtq(o, it, tmo) => SteadySnd(s, r, o, it, tmo);
    case OpPsndDtq(o, it) => SteadySnd(s, r, o, it, Pol);
    case OpFsndDtq(o, it) => SteadyFsnd(s, o, it); SteadySettle(s, FsndDtq(s, o, it).0);
    case OpRcvDtq(o, tmo) => SteadyRcv(s, r, o, tmo);
    case OpPrcvDtq(o) => SteadyRcv(s, r, o, Pol);
    case OpIniDtq(o) => SteadyIniDtq(s, o);
    case OpGetMpf(o, tmo) => SteadyGet(s, r, o, tmo);
    case OpPgetMpf(o) => SteadyGet(s, r, o, Pol);
    case OpRelMpf(o, b) => SteadyRel(s, o, b);
    case OpIniMpf(o) => if IsMpf(s, o) { SteadyIni(s, o, MpfCb(NewPool(s.inib[o].blkcnt))); }
  }

  lemma SteadySnd(s: State, r: Tid, o: nat, it: Item, tmo: Tmo)
    requires Shape(s) && r < |s.tcb| && SndDtq(s, r, o, it, tmo).1 != Blocked
    ensures Steady(s, SndDtq(s, r, o, it, tmo).0)
  {
    hide Steady, SendData, WobjMakeWait, Settle;
    SteadySame(s, s);
    if IsDtq(s, o) && SendData(s, o, it).Some? {
      SteadySend(s, o, it);
      SteadySettle(s, SendData(s, o, it).value);
    }
  }

  lemma SteadyFsnd(s: State, o: nat, it: Item)
    requires Shape(s)
    ensures Steady(s, FsndDtq(s, o, it).0)
  {
    hide Steady, ForceSendData;
    SteadySame(s, s);
    if IsDtq(s, o) {
      SteadySend(s, o, it);
    }
  }

  lemma SteadyRcv(s: State, r: Tid, o: nat, tmo: Tmo)
    requires Shape(s) && r < |s.tcb| && RcvDtq(s, r, o, tmo).1 != Blocked
    ensures Steady(s, RcvDtq(s, r, o, tmo).0)
  {
    hide Steady, ReceiveData, WobjMakeWait, Settle;
    SteadySame(s, s);
    if IsDtq(s, o) && ReceiveData(s, o).Some? {
      var p := ReceiveData(s, o).value;
      SteadyReceive(s, o);
      SteadyLen(s, p.0);
      SteadyItem(p.0, r, p.1);
      SteadyThen(s, p.0, SetItem(p.0, r, p.1));
      SteadySettle(s, SetItem(p.0, r, p.1));
    }
  }

  lemma SteadyLen(s: State, s1: State)
    requires Steady(s, s1)
    ensures |s1.tcb| == |s.tcb|
  {
  }

  lemma SteadyIniDtq(s: State, o: nat)
    requires Shape(s)
    ensures Steady(s, IniDtq(s, o).0)
  {
    hide Steady, WakeAll, Settle;
    SteadySame(s, s);
    if IsDtq(s, o) {
      var s1 := WakeAll(s, s.wq[o]);
      var s2 := WakeAll(s1, s1.wq[RcvQ(s1, o)]);
      SteadyAll(s, s.wq[o]);
      SteadyAll(s1, s1.wq[RcvQ(s1, o)]);
      SteadyThen(s, s1, s2);
      SteadySame(s2, SetItems(s2, o, []));
      SteadyThen(s, s2, SetItems(s2, o, []));
      SteadySettle(s, SetItems(s2, o, []));
    }
  }

  lemma SteadyGet(s: State, r: Tid, o: nat, tmo: Tmo)
    requires Shape(s) && r < |s.tcb| && GetMpf(s, r, o, tmo).1 != Blocked
    ensures Steady(s, GetMpf(s, r, o, tmo).0)
  {
    hide Steady, WobjMakeWait, Settle, GetBlock;
    SteadySame(s, s);
    if IsMpf(s, o) && s.objs[o].pool.fblkcnt > 0 {
      var s1 := s.(objs := s.objs[o := MpfCb(GetBlock(s.objs[o].pool))]);
      SteadySame(s, s1);
      SteadyItem(s1, r, Item(NextBlock(s.objs[o].pool), 0));
      SteadyThen(s, s1, SetItem(s1, r, Item(NextBlock(s.objs[o].pool), 0)));
    }
  }

  lemma SteadyRel(s: State, o: nat, b: nat)
    requires Shape(s)
    ensures Steady(s, RelMpf(s, o, b).0)
  {
    hide Steady, WakeHead, Settle, RelBlock;
    SteadySame(s, s);
    if IsMpf(s, o) {
      SteadySame(s, s.(objs := s.objs[o := MpfCb(RelBlock(s.objs[o].pool, b))]));
      if s.wq[o] != [] && s.wq[o][0] < |s.tcb| {
        SteadyGive(s, o, Item(b, 0));
        SteadySettle(s, WakeHead(SetItem(s, s.wq[o][0], Item(b, 0)), o));
      }
    }
  }

  // ---- calls about tasks --------------------------------------------------------------------------

  /** What TaskAfter promises of one task. */
  ghost predicate Follows(s: State, p: (State, Er), op: Op, t: Tid)
    requires Shape(s) && t < |s.tcb|
  {
    && |p.0.tcb| == |s.tcb|
    && BookOf(p.0.tcb[t]) == NextBook(s, op, p.1, t)
    && p.0.tcb[t].tstat == NextState(s, op, p.1, t)
  }

  /** For a call that makes the caller wait. */
  lemma BlockedFollows(s: State, op: Op, t: Tid)
    requires Inv(s) && t < |s.tcb| && Step(s, op).1 == Blocked && op != Manage(OpExtTsk)
    ensures Follows(s, Step(s, op), op, t)
  {
    hide ReadyOk, WaitOk, OrderOk, EvtOk, OwnOk, PriOk, ObjOk, Step, EndOf;
    BlockedWaits(s, op);
    if s.tcb[t].tstat.Waiting? {
      NoEnd(s, op, t);
    }
  }

  /** A call that waits ends no wait. */
  lemma NoEnd(s: State, op: Op, t: Tid)
    requires Inv(s) && t < |s.tcb| && s.tcb[t].tstat.Waiting? && Step(s, op).1 == Blocked && op != Manage(OpExtTsk)
    ensures EndOf(s, op, t) == None
  {
    hide ReadyOk, WaitOk, OrderOk, EvtOk, OwnOk, PriOk, ObjOk, Step, EndOf;
    BlockedWaits(s, op);
    WaitEnds(s, op, t);
  }

  /** v1 is what becomes of t, as far as that does not concern how its wait ends. */
  ghost predicate Becomes(s: State, v1: Tcb, op: Op, er: Er, t: Tid)
    requires Shape(s) && t < |s.tcb|
  {
    && BookOf(v1) == NextBook(s, op, er, t)
    && (!s.tcb[t].tstat.Waiting? || op == Manage(OpTerTsk(t)) || Toggled(op, t) ==> v1.tstat == NextState(s, op, er, t))
  }

  ghost predicate Moves(s: State, p: (State, Er), op: Op, t: Tid)
    requires Shape(s) && t < |s.tcb|
  {
    |p.0.tcb| == |s.tcb| && Becomes(s, p.0.tcb[t], op, p.1, t)
  }

  /** The task the call names. */
  function Target(op: Op): Option<Tid> {
    match op
    case Manage(m) =>
      if m.OpActTsk? || m.OpTerTsk? || m.OpChgPri? || m.OpDelTsk? || m.OpWupTsk? || m.OpRelWai? || m.OpSusTsk?
         || m.OpRsmTsk? || m.OpDisWai? || m.OpEnaWai? then Some(m.t) else None
    case Int(i) => if i.OpIActTsk? || i.OpIWupTsk? || i.OpIRelWai? then Some(i.t) else None
    case Sync(_) => None
    case Data(_) => None
    case IntEnter => None
  }

  /** A task the call does not name stays what it was. */
  lemma Untouched(s: State, v1: Tcb, op: Op, er: Er, t: Tid)
    requires Shape(s) && t < |s.tcb| && Target(op).Some? && Target(op) != Some(t) && er != Blocked
    requires BookOf(v1) == BookOf(s.tcb[t]) && (!s.tcb[t].tstat.Waiting? ==> v1.tstat == s.tcb[t].tstat)
    ensures Becomes(s, v1, op, er, t)
  {
    hide EndOf;
  }

  /** A call that is refused does nothing to any task. */
  lemma Refused(s: State, op: Op, er: Er, t: Tid)
    requires Shape(s) && t < |s.tcb| && er != E_OK && er != Blocked
    requires s.tcb[t].tstat.Waiting? && op == Manage(OpTerTsk(t)) ==> !Called(s, op)
    ensures Becomes(s, s.tcb[t], op, er, t)
  {
    hide EndOf;
    if s.tcb[t].tstat.Waiting? {
      NotToggled(s, t);
      NotCalled(s, op, t);
    }
  }

  lemma NotToggled(s: State, t: Tid)
    requires Shape(s) && t < |s.tcb| && s.tcb[t].tstat.Waiting?
    ensures EndOf(s, Manage(OpSusTsk(t)), t) == None && EndOf(s, Manage(OpRsmTsk(t)), t) == None
  {
  }

  lemma NotCalled(s: State, op: Op, t: Tid)
    requires Shape(s) && t < |s.tcb| && s.tcb[t].tstat.Waiting?
    ensures op.Manage? && !Called(s, op) ==> EndOf(s, op, t) == None
  {
  }

  lemma MovesFollows(s: State, op: Op, t: Tid)
    requires Inv(s) && t < |s.tcb| && Moves(s, Step(s, op), op, t)
    ensures Follows(s, Step(s, op), op, t)
  {
    hide ReadyOk, WaitOk, OrderOk, EvtOk, OwnOk, PriOk, ObjOk, Step, EndOf, NextBook;
    if s.tcb[t].tstat.Waiting? && op != Manage(OpTerTsk(t)) && !Toggled(op, t) {
      WaitEnds(s, op, t);
    }
  }

  lemma ThenMoves(s: State, p: (State, Er), op: Op, t: Tid)
    requires Shape(s) && t < |s.tcb| && Moves(s, p, op, t)
    ensures Moves(s, Then(p), op, t)
  {
    hide Becomes;
  }

  lemma ActMoves(s: State, op: Op, u: Tid, t: Tid)
    requires Shape(s) && t < |s.tcb| && (op == Manage(OpActTsk(u)) || op == Int(OpIActTsk(u)))
    ensures Moves(s, ActTsk(s, u), op, t)
  {
    hide Becomes;
    var er := ActTsk(s, u).1;
    if u != t {
      Untouched(s, s.tcb[t], op, er, t);
    } else if er != E_OK {
      Refused(s, op, er, t);
    } else {
      Activated(s, op, t);
    }
  }

  lemma Activated(s: State, op: Op, t: Tid)
    requires Shape(s) && t < |s.tcb| && (op == Manage(OpActTsk(t)) || op == Int(OpIActTsk(t)))
    ensures var v := s.tcb[t];
      Becomes(s, if v.tstat.Dormant? then v.(tstat := Runnable) else v.(actque := true), op, E_OK, t)
  {
    hide EndOf;
  }

  lemma WupMoves(s: State, op: Op, u: Tid, t: Tid)
    requires Shape(s) && t < |s.tcb| && (op == Manage(OpWupTsk(u)) || op == Int(OpIWupTsk(u)))
    ensures Moves(s, WupTsk(s, u), op, t)
  {
    hide Becomes, Remove;
    var er := WupTsk(s, u).1;
    if u != t {
      Untouched(s, s.tcb[t], op, er, t);
    } else if er != E_OK {
      Refused(s, op, er, t);
    } else {
      WokenUp(s, op, t);
    }
  }

  lemma WokenUp(s: State, op: Op, t: Tid)
    requires Shape(s) && t < |s.tcb| && (op == Manage(OpWupTsk(t)) || op == Int(OpIWupTsk(t)))
    ensures var v := s.tcb[t];
      if v.tstat.Waiting? && v.tstat.on == Slp then Becomes(s, Woken(v, E_OK), op, E_OK, t)
      else Becomes(s, v.(wupque := true), op, E_OK, t)
  {
    hide EndOf;
  }

  lemma RelMoves(s: State, u: Tid, t: Tid)
    requires Shape(s) && t < |s.tcb|
    ensures Moves(s, RelWai(s, u), Manage(OpRelWai(u)), t)
  {
    hide Becomes, Remove;
    var op, er := Manage(OpRelWai(u)), RelWai(s, u).1;
    if u != t {
      Untouched(s, s.tcb[t], op, er, t);
    } else if er != E_OK {
      Refused(s, op, er, t);
    } else {
      LetGo(s, t);
    }
  }

  lemma LetGo(s: State, t: Tid)
    requires Shape(s) && t < |s.tcb| && s.tcb[t].tstat.Waiting?
    ensures Becomes(s, Woken(s.tcb[t], E_RLWAI), Manage(OpRelWai(t)), E_OK, t)
  {
    hide EndOf;
  }

  lemma SusMoves(s: State, r: Tid, u: Tid, t: Tid)
    requires Inv(s) && t < |s.tcb|
    ensures Moves(s, SusTsk(s, r, u), Manage(OpSusTsk(u)), t)
  {
    hide ReadyOk, WaitOk, OrderOk, EvtOk, OwnOk, PriOk, ObjOk, Becomes, Remove;
    var op, er := Manage(OpSusTsk(u)), SusTsk(s, r, u).1;
    if u != t {
      Untouched(s, s.tcb[t], op, er, t);
      SusOthers(s, r, u, t);
    } else if er != E_OK {
      Refused(s, op, er, t);
    } else {
      Suspends(s, r, t);
    }
  }

  lemma Suspends(s: State, r: Tid, t: Tid)
    requires Inv(s) && t < |s.tcb| && SusTsk(s, r, t).1 == E_OK
    ensures var s1 := SusTsk(s, r, t).0; |s1.tcb| == |s.tcb| && Becomes(s, s1.tcb[t], Manage(OpSusTsk(t)), E_OK, t)
  {
    hide ReadyOk, WaitOk, OrderOk, EvtOk, OwnOk, PriOk, ObjOk, EndOf, Remove;
    if s.tcb[t].tstat.Waiting? {
      NotToggled(s, t);
    }
  }

  lemma RsmMoves(s: State, u: Tid, t: Tid)
    requires Inv(s) && t < |s.tcb|
    ensures Moves(s, RsmTsk(s, u), Manage(OpRsmTsk(u)), t)
  {
    hide ReadyOk, WaitOk, OrderOk, EvtOk, OwnOk, PriOk, ObjOk, Becomes;
    var op, er := Manage(OpRsmTsk(u)), RsmTsk(s, u).1;
    if u != t {
      Untouched(s, s.tcb[t], op, er, t);
      RsmOthers(s, u, t);
    } else if er != E_OK {
      Refused(s, op, er, t);
    } else {
      Resumes(s, t);
    }
  }

  lemma Resumes(s: State, t: Tid)
    requires Inv(s) && t < |s.tcb| && RsmTsk(s, t).1 == E_OK
    ensures var s1 := RsmTsk(s, t).0; |s1.tcb| == |s.tcb| && Becomes(s, s1.tcb[t], Manage(OpRsmTsk(t)), E_OK, t)
  {
    hide ReadyOk, WaitOk, OrderOk, EvtOk, OwnOk, PriOk, ObjOk, EndOf;
    if s.tcb[t].tstat.Waiting? {
      NotToggled(s, t);
    }
  }

  lemma DisMoves(s: State, u: Tid, texmask: bool, t: Tid)
    requires Shape(s) && t < |s.tcb|
    ensures Moves(s, DisWai(s, u, texmask), Manage(OpDisWai(u, texmask)), t)
  {
    hide Becomes;
    var op, er := Manage(OpDisWai(u, texmask)), DisWai(s, u, texmask).1;
    if u != t {
      Untouched(s, s.tcb[t], op, er, t);
    } else if er != E_OK {
      Refused(s, op, er, t);
    } else {
      Forbidden(s, texmask, t);
    }
  }

  lemma EnaMoves(s: State, u: Tid, t: Tid)
    requires Shape(s) && t < |s.tcb|
    ensures Moves(s, EnaWai(s, u), Manage(OpEnaWai(u)), t)
  {
    hide Becomes;
    var op, er := Manage(OpEnaWai(u)), EnaWai(s, u).1;
    if u != t {
      Untouched(s, s.tcb[t], op, er, t);
    } else if er != E_OK {
      Refused(s, op, er, t);
    } else {
      Forbidden(s, true, t);
    }
  }

  lemma Forbidden(s: State, texmask: bool, t: Tid)
    requires Shape(s) && t < |s.tcb|
    ensures Becomes(s, s.tcb[t].(waifbd := true), Manage(OpDisWai(t, texmask)), E_OK, t)
    ensures Becomes(s, s.tcb[t].(waifbd := false), Manage(OpEnaWai(t)), E_OK, t)
  {
    hide EndOf;
  }

  lemma DelMoves(s: State, u: Tid, t: Tid)
    requires Shape(s) && t < |s.tcb|
    ensures Moves(s, DelTsk(s, u), Manage(OpDelTsk(u)), t)
  {
    hide Becomes;
    var op, er := Manage(OpDelTsk(u)), DelTsk(s, u).1;
    if u != t {
      Untouched(s, s.tcb[t], op, er, t);
    } else if er != E_OK {
      Refused(s, op, er, t);
    } else {
      Deleted(s, t);
    }
  }

  lemma Deleted(s: State, t: Tid)
    requires Shape(s) && t < |s.tcb| && s.tcb[t].tstat.Dormant?
    ensures Becomes(s, s.tcb[t].(exs := false), Manage(OpDelTsk(t)), E_OK, t)
  {
  }

  lemma AcreMoves(s: State, ipri: Pri, act: bool, t: Tid)
    requires Inv(s) && t < |s.tcb|
    ensures Moves(s, AcreTsk(s, ipri, act), Manage(OpAcreTsk(ipri, act)), t)
  {
    hide ReadyOk, WaitOk, OrderOk, EvtOk, OwnOk, PriOk, ObjOk, NoDup, Becomes;
    var op, er := Manage(OpAcreTsk(ipri, act)), AcreTsk(s, ipri, act).1;
    if s.freeTcb != [] {
      assert s.freeTcb[0] in s.freeTcb;
    }
    if er != E_OK {
      Refused(s, op, er, t);
    } else if t == s.freeTcb[0] {
      Created(s, AcreTsk(s, ipri, act).0.tcb[t], ipri, act, t);
    } else {
      NotCreated(s, ipri, act, t);
    }
  }

  lemma Created(s: State, v1: Tcb, ipri: Pri, act: bool, t: Tid)
    requires Shape(s) && t < |s.tcb| && s.tcb[t].tstat.Dormant? && s.freeTcb != [] && s.freeTcb[0] == t
    requires BookOf(v1) == Fresh(ipri) && v1.tstat == if act then Runnable else Dormant
    ensures Becomes(s, v1, Manage(OpAcreTsk(ipri, act)), E_OK, t)
  {
  }

  lemma NotCreated(s: State, ipri: Pri, act: bool, t: Tid)
    requires Shape(s) && t < |s.tcb| && (s.freeTcb != [] ==> s.freeTcb[0] != t)
    ensures Becomes(s, s.tcb[t], Manage(OpAcreTsk(ipri, act)), E_OK, t)
  {
    hide EndOf;
  }

  lemma ChgMoves(s: State, r: Tid, u: Tid, p: Option<Pri>, t: Tid)
    requires Shape(s) && r < |s.tcb| && t < |s.tcb|
    ensures Moves(s, ChgPri(s, r, u, p), Manage(OpChgPri(u, p)), t)
  {
    hide Becomes, ChgPri;
    var op, er := Manage(OpChgPri(u, p)), ChgPri(s, r, u, p).1;
    ChgFields(s, r, u, p, t);
    if u != t {
      Untouched(s, s.tcb[t], op, er, t);
    } else if er != E_OK {
      Refused(s, op, er, t);
    } else {
      Rebased(s, p, if p.None? then s.tcb[t].ini.ipri else p.value, t, ChgPri(s, r, u, p).0.tcb[t].pri);
    }
  }

  lemma ChgFields(s: State, r: Tid, u: Tid, p: Option<Pri>, t: Tid)
    requires Shape(s) && r < |s.tcb| && t < |s.tcb|
    ensures var (s1, er) := ChgPri(s, r, u, p); var v := s.tcb[t];
      && |s1.tcb| == |s.tcb| && er != Blocked
      && s1.tcb[t] == if u == t && er == E_OK
                      then v.(bpri := if p.None? then v.ini.ipri else p.value, pri := s1.tcb[t].pri) else v
  {
    hide ChangePriority, CheckCeilpri, ScanCeilmtx, Settle;
    if u < |s.tcb| {
      RebaseFields(s, u, if p.None? then s.tcb[u].ini.ipri else p.value, t);
    }
  }

  lemma RebaseFields(s: State, u: Tid, newb: Pri, t: Tid)
    requires Shape(s) && u < |s.tcb| && t < |s.tcb|
    ensures var s0 := s.(tcb := s.tcb[u := s.tcb[u].(bpri := newb)]); var s1 := Settle(ChangePriority(s0, u, newb, false));
      && |s1.tcb| == |s.tcb| && s1.tcb[t] == if u == t then s.tcb[t].(bpri := newb, pri := newb) else s.tcb[t]
  {
    hide ChangePriority;
    ChangeForm(s.(tcb := s.tcb[u := s.tcb[u].(bpri := newb)]), u, newb, false);
  }

  lemma Rebased(s: State, p: Option<Pri>, newb: Pri, t: Tid, pri: Pri)
    requires Shape(s) && t < |s.tcb| && newb == if p.None? then s.tcb[t].ini.ipri else p.value
    ensures Becomes(s, s.tcb[t].(bpri := newb, pri := pri), Manage(OpChgPri(t, p)), E_OK, t)
  {
    hide EndOf;
  }

  lemma SlpMoves(s: State, r: Tid, tmo: Tmo, t: Tid)
    requires Inv(s) && s.run == Some(r) && t < |s.tcb| && SlpTsk(s, r, tmo).1 != Blocked
    ensures r < |s.tcb| && Moves(s, SlpTsk(s, r, tmo), Manage(OpSlpTsk(tmo)), t)
  {
    hide ReadyOk, WaitOk, OrderOk, EvtOk, OwnOk, PriOk, ObjOk, MakeWait, Becomes;
    var op, er := Manage(OpSlpTsk(tmo)), SlpTsk(s, r, tmo).1;
    if er != E_OK {
      Refused(s, op, er, t);
    } else {
      UsedUp(s, r, tmo, t);
    }
  }

  lemma UsedUp(s: State, r: Tid, tmo: Tmo, t: Tid)
    requires Shape(s) && s.run == Some(r) && r < |s.tcb| && s.tcb[r].tstat.Runnable? && t < |s.tcb|
    ensures Becomes(s, if t == r then s.tcb[r].(wupque := false) else s.tcb[t], Manage(OpSlpTsk(tmo)), E_OK, t)
  {
    hide EndOf;
  }

  /** The end of a task, as it and the others see it. */
  lemma FinishBooks(s: State, u: Tid, t: Tid)
    requires Good(s, {u}, {}) && ObjsOk(s) && u < |s.tcb| && t < |s.tcb|
    ensures var s1 := Finish(s, u); var v, v1 := s.tcb[t], s1.tcb[t];
      && |s1.tcb| == |s.tcb|
      && (t != u ==> BookOf(v1) == BookOf(v) && (!v.tstat.Waiting? ==> v1.tstat == v.tstat))
      && (t == u ==> v1.exs == v.exs && v1.ini == v.ini && v1.bpri == v.ini.ipri && !v1.actque && !v1.wupque
                     && !v1.waifbd && v1.tstat == (if v.actque then Runnable else Dormant))
  {
    hide ReadyOk, WaitOk, OrderOk, EvtOk, OwnOk, PriOk, ObjOk, ReleaseAll;
    ReleaseAllGood(s, u, {u});
    SteadyReleaseAll(s, u, s.tcb[u].held);
    var s1 := ReleaseAll(s, u, s.tcb[u].held);
    if t != u {
      OthersStay(s1, u, t);
    }
  }

  lemma TerMoves(s: State, r: Tid, u: Tid, t: Tid)
    requires Inv(s) && s.run == Some(r) && t < |s.tcb|
    ensures Moves(s, TerTsk(s, r, u), Manage(OpTerTsk(u)), t)
  {
    hide ReadyOk, WaitOk, OrderOk, EvtOk, OwnOk, PriOk, ObjOk, EndOf, Finish, Detach, Becomes;
    var op, er := Manage(OpTerTsk(u)), TerTsk(s, r, u).1;
    var v1 := TerTsk(s, r, u).0.tcb[t];
    if er != E_OK {
      WaitingExists(s, t);
      Refused(s, op, er, t);
    } else {
      DetachGood(s, u);
      FinishBooks(Detach(s, u), u, t);
      if u != t {
        Untouched(s, v1, op, er, t);
      } else {
        Ended(s, v1, op, er, t);
      }
    }
  }

  lemma WaitingExists(s: State, t: Tid)
    requires FreeOk(s) && t < |s.tcb|
    ensures s.tcb[t].tstat.Waiting? ==> s.tcb[t].exs
  {
  }

  lemma Ended(s: State, v1: Tcb, op: Op, er: Er, t: Tid)
    requires Shape(s) && t < |s.tcb| && Ends(s, op, er, t) && s.tcb[t].exs
    requires var v := s.tcb[t];
      && v1.exs == v.exs && v1.ini == v.ini && v1.bpri == v.ini.ipri && !v1.actque && !v1.wupque
      && !v1.waifbd && v1.tstat == (if v.actque then Runnable else Dormant)
    ensures Becomes(s, v1, op, er, t)
  {
  }

  lemma ExtMoves(s: State, r: Tid, t: Tid)
    requires Inv(s) && s.run == Some(r) && t < |s.tcb|
    ensures r < |s.tcb| && Moves(s, ExtTsk(s, r), Manage(OpExtTsk), t)
  {
    hide ReadyOk, WaitOk, OrderOk, EvtOk, OwnOk, PriOk, ObjOk, EndOf, Finish;
    var s1 := s.(disdsp := false, ipmflg := true, dspflg := true);
    FlagsCore(s, s1);
    DetachGood(s1, r);
    assert Detach(s1, r) == MakeNonRunnable(s1, r);
    RunningExists(s, r);
    FinishBooks(Detach(s1, r), r, t);
  }

  lemma RunningExists(s: State, r: Tid)
    requires Inv(s) && s.run == Some(r)
    ensures r < |s.tcb| && s.tcb[r].exs && s.tcb[r].tstat.Runnable?
  {
    hide ReadyOk, WaitOk, OrderOk, EvtOk, OwnOk, PriOk, ObjOk;
  }

  /** Calls on flags and rotations do nothing to any task. */
  lemma PlainMoves(s: State, s1: State, op: Op, t: Tid)
    requires Inv(s) && t < |s.tcb| && s1.tcb == s.tcb
    requires op == IntEnter || op == Int(OpIntExit) || (op.Int? && op.i.OpIRotRdq?)
      || (op.Manage? && (op.m.OpDisDsp? || op.m.OpEnaDsp? || op.m.OpChgIpm? || op.m.OpRotRdq?))
    ensures Moves(s, (s1, E_OK), op, t)
  {
    hide ReadyOk, WaitOk, OrderOk, EvtOk, OwnOk, PriOk, ObjOk, EndOf;
  }

  lemma ManageMoves(s: State, r: Tid, m: ManageOp, t: Tid)
    requires Inv(s) && s.run == Some(r) && t < |s.tcb| && (ManageStep(s, r, m).1 != Blocked || m == OpExtTsk)
    ensures Moves(s, ManageStep(s, r, m), Manage(m), t)
  {
    hide ReadyOk, WaitOk, OrderOk, EvtOk, OwnOk, PriOk, ObjOk, ActTsk, ExtTsk, TerTsk, ChgPri, AcreTsk, DelTsk, SlpTsk,
         WupTsk, RelWai, SusTsk, RsmTsk, DisWai, EnaWai, Moves, Then;
    match m
    case OpActTsk(u) => ActMoves(s, Manage(m), u, t); ThenMoves(s, ActTsk(s, u), Manage(m), t);
    case OpExtTsk => ExtMoves(s, r, t);
    case OpTerTsk(u) => TerMoves(s, r, u, t);
    case OpChgPri(u, p) => ChgMoves(s, r, u, p, t);
    case OpAcreTsk(ipri, act) => AcreMoves(s, ipri, act, t);
    case OpDelTsk(u) => DelMoves(s, u, t);
    case OpSlpTsk(tmo) => SlpMoves(s, r, tmo, t);
    case OpDlyTsk => RefusedMoves(s, E_RLWAI, Manage(m), t);
    case OpWupTsk(u) => WupMoves(s, Manage(m), u, t); ThenMoves(s, WupTsk(s, u), Manage(m), t);
    case OpRelWai(u) => RelMoves(s, u, t); ThenMoves(s, RelWai(s, u), Manage(m), t);
    case OpSusTsk(u) => SusMoves(s, r, u, t);
    case OpRsmTsk(u) => RsmMoves(s, u, t);
    case OpDisWai(u, texmask) => DisMoves(s, u, texmask, t);
    case OpEnaWai(u) => EnaMoves(s, u, t);
    case OpDisDsp => PlainMoves(s, DisDsp(s), Manage(m), t);
    case OpEnaDsp => PlainMoves(s, EnaDsp(s), Manage(m), t);
    case OpChgIpm(enaall) => PlainMoves(s, ChgIpm(s, enaall), Manage(m), t);
    case OpRotRdq(p) => PlainMoves(s, ManageStep(s, r, m).0, Manage(m), t);
  }

  lemma RefusedMoves(s: State, er: Er, op: Op, t: Tid)
    requires Shape(s) && t < |s.tcb| && er != E_OK && er != Blocked
    requires op == Manage(OpTerTsk(t)) ==> !Called(s, op)
    ensures Moves(s, (s, er), op, t)
  {
    hide Becomes;
    Refused(s, op, er, t);
  }

  lemma IntMoves(s: State, i: IntOp, t: Tid)
    requires Inv(s) && t < |s.tcb|
    ensures Moves(s, IntStep(s, i), Int(i), t)
  {
    hide ReadyOk, WaitOk, OrderOk, EvtOk, OwnOk, PriOk, ObjOk, ActTsk, WupTsk, RelWai, RotateReadyQueue, SigSem, SetFlg,
         FsndDtq, SendData, Wake, Moves, Steady;
    SteadySame(s, s);
    match i
    case OpIntExit => PlainMoves(s, Settle(s.(intctx := false)), Int(i), t);
    case OpIActTsk(u) => ActMoves(s, Int(i), u, t);
    case OpIWupTsk(u) => WupMoves(s, Int(i), u, t);
    case OpIRotRdq(p) => PlainMoves(s, RotatedTcb(s, p), Int(i), t);
    case OpIRelWai(u) => SteadyRelWai(s, u); SteadyMoves(s, IntStep(s, i), Int(i), t);
    case OpISigSem(o) => SteadySig(s, o); SteadyMoves(s, IntStep(s, i), Int(i), t);
    case OpISetFlg(o, ptn) => SteadySetFlg(s, o, ptn); SteadyMoves(s, IntStep(s, i), Int(i), t);
    case OpIpsndDtq(o, it) => if IsDtq(s, o) { SteadySend(s, o, it); } SteadyMoves(s, IntStep(s, i), Int(i), t);
    case OpIfsndDtq(o, it) => SteadyFsnd(s, o, it); SteadyMoves(s, IntStep(s, i), Int(i), t);
    case OpTimeout(u) =>
      if u < |s.tcb| && s.tcb[u].tstat.Waiting? {
        SteadyWake(s, u, if s.tcb[u].tstat.on == Dly then E_OK else E_TMOUT);
      }
      SteadyMoves(s, IntStep(s, i), Int(i), t);
  }

  function RotatedTcb(s: State, p: Pri): (s1: State)
    requires Shape(s)
    ensures s1 == RotateReadyQueue(s, p) && s1.tcb == s.tcb
  {
    RotateReadyQueue(s, p)
  }

  lemma SteadyRelWai(s: State, u: Tid)
    requires Shape(s)
    ensures Steady(s, RelWai(s, u).0)
  {
    hide Steady, Wake;
    SteadySame(s, s);
    if u < |s.tcb| && s.tcb[u].tstat.Waiting? {
      SteadyWake(s, u, E_RLWAI);
    }
  }

  lemma SteadyMoves(s: State, p: (State, Er), op: Op, t: Tid)
    requires Shape(s) && t < |s.tcb| && Steady(s, p.0) && !op.Manage? && (p.1 == Blocked ==> !Limit(op).Some?)
    requires op.Int? ==> !op.i.OpIActTsk? && !op.i.OpIWupTsk?
    ensures Moves(s, p, op, t)
  {
    hide EndOf;
  }

  // ---- any call, interrupt or tick, any task ------------------------------------------------------

  /** The state and the books of any task after any call, interrupt or tick. */
  lemma TaskAfter(s: State, op: Op, t: Tid)
    requires Inv(s) && t < |s.tcb|
    ensures var (s1, er) := Step(s, op);
      && |s1.tcb| == |s.tcb|
      && s1.tcb[t].tstat == NextState(s, op, er, t)
      && BookOf(s1.tcb[t]) == NextBook(s, op, er, t)
  {
    hide ReadyOk, WaitOk, OrderOk, EvtOk, OwnOk, PriOk, ObjOk, ManageStep, SyncStep, DataStep, IntStep, Moves, NextState,
         NextBook, Steady;
    if Step(s, op).1 == Blocked && op != Manage(OpExtTsk) {
      BlockedFollows(s, op, t);
    } else {
      AnyMoves(s, op, t);
      MovesFollows(s, op, t);
    }
  }

  lemma AnyMoves(s: State, op: Op, t: Tid)
    requires Inv(s) && t < |s.tcb| && (Step(s, op).1 != Blocked || op == Manage(OpExtTsk))
    ensures Moves(s, Step(s, op), op, t)
  {
    hide ReadyOk, WaitOk, OrderOk, EvtOk, OwnOk, PriOk, ObjOk, ManageStep, SyncStep, DataStep, IntStep, Moves, Steady;
    if !Called(s, op) {
      RefusedMoves(s, E_CTX, op, t);
    }
    if op.IntEnter? {
      PlainMoves(s, s.(intctx := true), op, t);
    } else if op.Int? {
      IntMoves(s, op.i, t);
    } else if Called(s, op) {
      match op
      case Manage(m) => ManageMoves(s, s.run.value, m, t);
      case Sync(y) => SteadySync(s, s.run.value, y); SteadyMoves(s, Step(s, op), op, t);
      case Data(d) => SteadyData(s, s.run.value, d); SteadyMoves(s, Step(s, op), op, t);
    }
  }
}
