/** How a wait begins and how it ends: for every call that may wait, when it does, with
    which time limit, on what and where in the queue; for every task that waits, which
    calls and ticks end its wait, and with which result. */
module KernelWaits {
  import opened Lists
  import opened KernelSpec
  import opened KernelFlags
  import opened KernelInv
  import opened KernelKeeps
  import opened KernelSync
  import opened KernelData
  import opened KernelResults

  // ---- what a call asks for -----------------------------------------------------------------

  /** The time limit the call gives for its wait; None for calls that never wait. */
  function Limit(op: Op): Option<Tmo> {
    match op
    case Manage(m) => if m.OpSlpTsk? then Some(m.tmo) else if m.OpDlyTsk? then Some(After) else None
    case Sync(y) =>
      if y.OpLocMtx? || y.OpWaiSem? || y.OpWaiFlg? then Some(y.tmo)
      else if y.OpPlocMtx? || y.OpPolSem? || y.OpPolFlg? then Some(Pol) else None
    case Data(d) =>
      if d.OpSndDtq? || d.OpRcvDtq? || d.OpGetMpf? then Some(d.tmo)
      else if d.OpPsndDtq? || d.OpPrcvDtq? || d.OpPgetMpf? then Some(Pol) else None
    case Int(_) => None
    case IntEnter => None
  }

  /** What the call waits on. */
  function Place(s: State, op: Op): WaitOn
    requires Limit(op).Some?
  {
    match op
    case Manage(m) => if m.OpSlpTsk? then Slp else Dly
    case Sync(y) => Wobj(y.o)
    case Data(d) => if d.OpRcvDtq? || d.OpPrcvDtq? then Wobj(|s.inib| + d.o) else Wobj(d.o)
  }

  predicate Polls(op: Op) {
    (op.Sync? && (op.y.OpPlocMtx? || op.y.OpPolSem? || op.y.OpPolFlg?))
    || (op.Data? && (op.d.OpPsndDtq? || op.d.OpPrcvDtq? || op.d.OpPgetMpf?))
  }

  /** A call of a task that is made in the right context: not in a handler and, if it is one
      that can wait, not while dispatching is disabled. */
  predicate Called(s: State, op: Op) {
    !op.Int? && !op.IntEnter? && !s.intctx && s.run.Some? && (Limit(op).Some? && !Polls(op) ==> s.dspflg)
  }

  /** The error in the arguments, or in the use, of a call that may wait. */
  function Misuse(s: State, r: Tid, op: Op): Option<Er>
    requires Shape(s) && r < |s.tcb| && Limit(op).Some?
  {
    match op
    case Manage(m) => None
    case Sync(y) =>
      if y.OpWaiSem? || y.OpPolSem? then
        if !IsSem(s, y.o) then Some(E_ID) else None
      else if y.OpWaiFlg? || y.OpPolFlg? then
        if !IsFlg(s, y.o) then Some(E_ID)
        else if y.ptn == 0 then Some(E_PAR)
        else if s.wq[y.o] != [] && !s.inib[y.o].wmul then Some(E_ILUSE)
        else None
      else
        if !IsMtx(s, y.o) then Some(E_ID)
        else if s.inib[y.o].proto.Ceiling? && s.tcb[r].bpri < s.inib[y.o].proto.c then Some(E_ILUSE)
        else if s.objs[y.o] == MtxCb(Some(r)) then Some(E_OBJ)
        else None
    case Data(d) =>
      if d.OpGetMpf? || d.OpPgetMpf? then
        if !IsMpf(s, d.o) then Some(E_ID) else None
      else
        if !IsDtq(s, d.o) then Some(E_ID)
        else if (d.OpSndDtq? || d.OpPsndDtq?) && s.inib[d.o].prio && (d.it.pri < 1 || d.it.pri > s.inib[d.o].maxdpri)
        then Some(E_PAR)
        else None
  }

  /** What the call asks for is there. */
  ghost predicate There(s: State, r: Tid, op: Op)
    requires Shape(s) && r < |s.tcb| && Limit(op).Some? && Misuse(s, r, op) == None
  {
    match op
    case Manage(m) => m.OpSlpTsk? && s.tcb[r].wupque
    case Sync(y) =>
      if y.OpWaiSem? || y.OpPolSem? then s.objs[y.o].semcnt > 0
      else if y.OpWaiFlg? || y.OpPolFlg? then Meets(s.objs[y.o].ptn, y.ptn, y.orw)
      else s.objs[y.o] == MtxCb(None)
    case Data(d) =>
      if d.OpGetMpf? || d.OpPgetMpf? then exists b: nat :: b < s.inib[d.o].blkcnt && b !in s.objs[d.o].pool.alloc
      else if d.OpSndDtq? || d.OpPsndDtq? then s.wq[RcvQ(s, d.o)] != [] || |s.objs[d.o].items| < s.inib[d.o].dtqcnt
      else s.objs[d.o].items != [] || s.wq[d.o] != []
  }

  // ---- the result of a call that may wait -----------------------------------------------------

  /** An error in the use of the call; or E_OK if and only if what it asks for is there;
      otherwise E_TMOUT for a poll, E_RLWAI when waiting is forbidden, and else the call
      waits. */
  ghost predicate Answers(s: State, r: Tid, op: Op, er: Er)
    requires Shape(s) && r < |s.tcb| && Limit(op).Some?
  {
    er ==
      if Misuse(s, r, op).Some? then Misuse(s, r, op).value
      else if There(s, r, op) then E_OK
      else if Limit(op) == Some(Pol) then E_TMOUT
      else if s.tcb[r].waifbd then E_RLWAI
      else Blocked
  }

  /** The result of every call that may wait, polling forms included. */
  lemma RequestResult(s: State, op: Op)
    requires Inv(s) && Called(s, op) && Limit(op).Some?
    ensures Shape(s) && s.run.value < |s.tcb|
    ensures Answers(s, s.run.value, op, Step(s, op).1)
  {
    hide ReadyOk, WaitOk, OrderOk, EvtOk, OwnOk, PriOk, ObjOk, SyncStep, DataStep, Misuse, There;
    match op
    case Manage(_) => SleepResult(s, op);
    case Sync(y) => SyncResult(s, s.run.value, y);
    case Data(d) => DataResult(s, s.run.value, d);
  }

  lemma SleepResult(s: State, op: Op)
    requires Inv(s) && Called(s, op) && Limit(op).Some? && op.Manage?
    ensures s.run.value < |s.tcb| && Answers(s, s.run.value, op, Step(s, op).1)
  {
    hide ReadyOk, WaitOk, OrderOk, EvtOk, OwnOk, PriOk, ObjOk, MakeWait, Settle;
  }

  lemma SyncResult(s: State, r: Tid, y: SyncOp)
    requires Core(s) && r < |s.tcb| && Limit(Sync(y)).Some?
    ensures Answers(s, r, Sync(y), SyncStep(s, r, y).1)
  {
    hide ReadyOk, WaitOk, OrderOk, EvtOk, OwnOk, PriOk, ObjOk, FlgCond, Meets, MakeWait, WobjMakeWait, Settle,
         MutexAcquire, TakePattern;
    if (y.OpWaiFlg? || y.OpPolFlg?) && IsFlg(s, y.o) {
      CondMeets(s.objs[y.o].ptn, y.ptn, y.orw);
    }
  }

  lemma DataResult(s: State, r: Tid, d: DataOp)
    requires Core(s) && r < |s.tcb| && Limit(Data(d)).Some?
    ensures Answers(s, r, Data(d), DataStep(s, r, d).1)
  {
    hide ReadyOk, WaitOk, OrderOk, EvtOk, OwnOk, PriOk, MakeWait, WobjMakeWait, Settle, WakeHead, HandOver,
         AddItem, PoolOk;
    if d.OpGetMpf? || d.OpPgetMpf? {
      if IsMpf(s, d.o) {
        assert ObjOk(s, d.o);
        FreeBlock(s.objs[d.o].pool, s.inib[d.o].blkcnt);
      }
    } else if d.o < |s.inib| && s.wq[d.o] != [] {
      HeadWaits(s, d.o);
    }
  }

  /** fblkcnt is not 0 exactly when some block is not allocated. */
  lemma FreeBlock(p: Pool, blkcnt: nat)
    requires PoolOk(p, blkcnt)
    ensures p.fblkcnt > 0 <==> exists b: nat :: b < blkcnt && b !in p.alloc
  {
    if p.free != [] {
      assert p.free[0] in p.free;
    } else if p.unused < blkcnt {
      assert p.unused !in p.alloc;
    }
  }

  // ---- how a wait begins --------------------------------------------------------------------

  /** The running task waits on on, and nothing else has happened: it has left the front of
      its ready queue, stands in the queue of what it waits on and nowhere else, its event
      block is registered if and only if the wait is timed, and the next task runs. */
  ghost predicate Waits(s: State, s1: State, r: Tid, on: WaitOn, timed: bool) {
    && r < |s.tcb| && |s1.tcb| == |s.tcb|
    && (forall t :: 0 <= t < |s.tcb| && t != r ==> s1.tcb[t] == s.tcb[t])
    && s1.tcb[r].tstat == Waiting(false, on) && s1.tcb[r].tmo == timed
    && (forall t :: t in s1.evts <==> t in s.evts || (t == r && timed))
    && s1.objs == s.objs && s1.inib == s.inib && s1.freeTcb == s.freeTcb && |s1.wq| == |s.wq|
    && (forall q :: 0 <= q < |s.wq| && on != Wobj(q) ==> s1.wq[q] == s.wq[q])
    && (on.Wobj? ==> on.q < |s.wq| && Stands(s, r, on.q, s1.wq[on.q]))
    && |s1.ready| == |s.ready| == 16
    && s.ready == s1.ready[s.tcb[r].pri := [r] + s1.ready[s.tcb[r].pri]]
    && s1.run == Top(s1.ready)
  }

  /** The object has TA_TPRI, or is a mutex with TA_TPRI or TA_CEILING. */
  predicate InOrder(i: Inib) {
    if i.MtxInib? then i.proto != Null else i.tpri
  }

  /** r stands last in the queue, or in a priority-ordered queue after all tasks of the same
      or higher priority. */
  ghost predicate Stands(s: State, r: Tid, q: nat, now: seq<Tid>)
    requires q < |s.wq| && r < |s.tcb|
  {
    if q < |s.inib| && InOrder(s.inib[q]) then exists k :: 0 <= k <= |s.wq[q]| && GoesAt(s, r, s.wq[q], now, k)
    else now == s.wq[q] + [r]
  }

  /** What the call has recorded of its wait: the bits waited for, the data to send. */
  predicate Recorded(v: Tcb, v1: Tcb, op: Op) {
    && v1 == v.(tstat := v1.tstat, tmo := v1.tmo, waiptn := v1.waiptn, orw := v1.orw, item := v1.item)
    && (if op.Sync? && op.y.OpWaiFlg? then v1.waiptn == op.y.ptn && v1.orw == op.y.orw
        else v1.waiptn == v.waiptn && v1.orw == v.orw)
    && (if op.Data? && op.d.OpSndDtq? then v1.item == op.d.it else v1.item == v.item)
  }

  lemma JoinWaits(s: State, s0: State, r: Tid, q: nat, timed: bool)
    requires Inv(s) && s.run == Some(r) && !s.intctx && s.dspflg && q < |s.wq|
    requires Core(s0) && r < |s.tcb| == |s0.tcb| && s0 == s.(tcb := s.tcb[r := s0.tcb[r]])
    requires s0.tcb[r] == s.tcb[r].(waiptn := s0.tcb[r].waiptn, orw := s0.tcb[r].orw, item := s0.tcb[r].item)
    ensures var s1 := Settle(WobjMakeWait(s0, r, q, timed));
      && Waits(s, s1, r, Wobj(q), timed)
      && s1.tcb[r] == s0.tcb[r].(tstat := s1.tcb[r].tstat, tmo := s1.tcb[r].tmo)
  {
    hide ReadyOk, WaitOk, OrderOk, EvtOk, OwnOk, PriOk, ObjOk, WobjMakeWait, GoesAt;
    JoinEffect(s0, r, q, timed);
    JoinPlace(s0, r, q, timed);
    var s1 := Settle(WobjMakeWait(s0, r, q, timed));
    FrontLeaves(s, r);
    PlaceFrame(s, s0, r, q, s1.wq[q]);
  }

  lemma PlaceFrame(s: State, s0: State, r: Tid, q: nat, now: seq<Tid>)
    requires Links(s, {}) && q < |s.wq| && r < |s.tcb| == |s0.tcb| && s0 == s.(tcb := s.tcb[r := s0.tcb[r]])
    requires s0.tcb[r].pri == s.tcb[r].pri
    requires !TpriQueue(s0, q) ==> now == s0.wq[q] + [r]
    requires TpriQueue(s0, q) ==> exists k :: 0 <= k <= |s0.wq[q]| && GoesAt(s0, r, s0.wq[q], now, k)
    ensures Stands(s, r, q, now)
  {
    if TpriQueue(s, q) {
      var k :| 0 <= k <= |s0.wq[q]| && GoesAt(s0, r, s0.wq[q], now, k);
      assert GoesAt(s, r, s.wq[q], now, k);
    }
  }

  /** The running task is first in its ready queue and leaves it to the others. */
  lemma FrontLeaves(s: State, r: Tid)
    requires Inv(s) && s.run == Some(r) && !s.intctx && s.dspflg
    ensures r < |s.tcb| && s.tcb[r].tstat.Runnable?
    ensures var ready := MakeNonRunnable(s, r).ready;
      |ready| == |s.ready| == 16 && s.ready == ready[s.tcb[r].pri := [r] + ready[s.tcb[r].pri]]
  {
    hide ReadyOk, WaitOk, OrderOk, EvtOk, OwnOk, PriOk, ObjOk, NoDup, Top;
    FirstOfQueue(s.tcb, s.ready, r);
    var q := s.ready[s.tcb[r].pri];
    assert [r] + q[1..] == q;
  }

  lemma SleepWaits(s: State, r: Tid, on: WaitOn, timed: bool)
    requires Inv(s) && s.run == Some(r) && !s.intctx && s.dspflg && !on.Wobj?
    ensures r < |s.tcb|
    ensures var s1 := Settle(MakeWait(s, r, on, timed));
      && Waits(s, s1, r, on, timed)
      && s1.tcb[r] == s.tcb[r].(tstat := s1.tcb[r].tstat, tmo := s1.tcb[r].tmo)
  {
    hide ReadyOk, WaitOk, OrderOk, EvtOk, OwnOk, PriOk, ObjOk, Remove;
    FrontLeaves(s, r);
  }

  /** Whenever a call waits, it waits on the object it names, with the time limit it was
      given, at the place the attribute of the object demands; only ext_tsk does not return
      for another reason. */
  lemma BlockedWaits(s: State, op: Op)
    requires Inv(s) && Step(s, op).1 == Blocked && op != Manage(OpExtTsk)
    ensures Shape(s) && Called(s, op) && s.run.value < |s.tcb| && Limit(op).Some?
    ensures var r := s.run.value; var s1 := Step(s, op).0;
      && Waits(s, s1, r, Place(s, op), Limit(op) == Some(After))
      && Recorded(s.tcb[r], s1.tcb[r], op)
  {
    hide ReadyOk, WaitOk, OrderOk, EvtOk, OwnOk, PriOk, ObjOk, ManageStep, SyncStep, DataStep, Waits, Recorded;
    NeverInInt(s, op);
    var r := s.run.value;
    match op
    case Manage(m) => ManageWaits(s, r, m);
    case Sync(y) => SyncWaits(s, r, y);
    case Data(d) => DataWaits(s, r, d);
  }

  lemma NeverInInt(s: State, op: Op)
    requires Shape(s) && Step(s, op).1 == Blocked
    ensures !op.Int? && !op.IntEnter?
  {
    hide FlgWalk, WakeHead, Wake, SendData, ForceSendData, MakeActive, RotateReadyQueue;
  }

  lemma ManageWaits(s: State, r: Tid, m: ManageOp)
    requires Inv(s) && s.run == Some(r) && !s.intctx && ManageStep(s, r, m).1 == Blocked && m != OpExtTsk
    requires MayBlock(Manage(m)) ==> s.dspflg
    ensures Limit(Manage(m)).Some? && r < |s.tcb|
    ensures var s1 := ManageStep(s, r, m).0;
      && Waits(s, s1, r, Place(s, Manage(m)), Limit(Manage(m)) == Some(After))
      && Recorded(s.tcb[r], s1.tcb[r], Manage(m))
  {
    hide ReadyOk, WaitOk, OrderOk, EvtOk, OwnOk, PriOk, ObjOk, MakeWait, Settle, Waits, Wake, Finish, Detach,
         ChangePriority, MakeActive;
    if m.OpSlpTsk? || m.OpDlyTsk? {
      SleepWaits(s, r, Place(s, Manage(m)), Limit(Manage(m)) == Some(After));
    }
  }

  lemma SyncWaits(s: State, r: Tid, y: SyncOp)
    requires Inv(s) && s.run == Some(r) && !s.intctx && (MayBlock(Sync(y)) ==> s.dspflg) && SyncStep(s, r, y).1 == Blocked
    ensures Limit(Sync(y)).Some? && r < |s.tcb|
    ensures var s1 := SyncStep(s, r, y).0;
      && Waits(s, s1, r, Place(s, Sync(y)), Limit(Sync(y)) == Some(After))
      && Recorded(s.tcb[r], s1.tcb[r], Sync(y))
  {
    hide ReadyOk, WaitOk, OrderOk, EvtOk, OwnOk, PriOk, ObjOk, FlgCond, MakeWait, WobjMakeWait, Settle, Waits,
         MutexAcquire, WaiFlg, FlgWalk, WakeAll, Unhold, MutexRelease, Strip, WakeHead;
    assert s.tcb[r := s.tcb[r]] == s.tcb;
    if y.OpWaiFlg? {
      FlagWaits(s, r, y.o, y.ptn, y.orw, y.tmo);
    } else if y.OpLocMtx? || y.OpWaiSem? {
      JoinWaits(s, s, r, y.o, y.tmo == After);
    } else if y.OpPolFlg? {
      PollsFlag(s, r, y.o, y.ptn, y.orw);
    }
  }

  lemma PollsFlag(s: State, r: Tid, o: nat, ptn: bv32, orw: bool)
    requires Shape(s) && r < |s.tcb|
    ensures WaiFlg(s, r, o, ptn, orw, Pol).1 != Blocked
  {
  }

  lemma FlagWaits(s: State, r: Tid, o: nat, ptn: bv32, orw: bool, tmo: Tmo)
    requires Inv(s) && s.run == Some(r) && !s.intctx && s.dspflg && WaiFlg(s, r, o, ptn, orw, tmo).1 == Blocked
    ensures r < |s.tcb|
    ensures var s1 := WaiFlg(s, r, o, ptn, orw, tmo).0;
      && Waits(s, s1, r, Wobj(o), tmo == After)
      && Recorded(s.tcb[r], s1.tcb[r], Sync(OpWaiFlg(o, ptn, orw, tmo)))
  {
    hide ReadyOk, WaitOk, OrderOk, EvtOk, OwnOk, PriOk, ObjOk, FlgCond, MakeWait, WobjMakeWait, Settle, Waits, TakePattern;
    PatternCore(s, r, ptn, orw);
    JoinWaits(s, s.(tcb := s.tcb[r := s.tcb[r].(waiptn := ptn, orw := orw)]), r, o, tmo == After);
  }

  lemma DataWaits(s: State, r: Tid, d: DataOp)
    requires Inv(s) && s.run == Some(r) && !s.intctx && (MayBlock(Data(d)) ==> s.dspflg) && DataStep(s, r, d).1 == Blocked
    ensures Limit(Data(d)).Some? && r < |s.tcb|
    ensures var s1 := DataStep(s, r, d).0;
      && Waits(s, s1, r, Place(s, Data(d)), Limit(Data(d)) == Some(After))
      && Recorded(s.tcb[r], s1.tcb[r], Data(d))
  {
    hide ReadyOk, WaitOk, OrderOk, EvtOk, OwnOk, PriOk, ObjOk, MakeWait, WobjMakeWait, Settle, Waits, SendData,
         ReceiveData, ForceSendData, WakeAll, WakeHead, GetBlock, RelBlock;
    assert s.tcb[r := s.tcb[r]] == s.tcb;
    if d.OpSndDtq? {
      ItemCore(s, r, d.it);
      JoinWaits(s, SetItem(s, r, d.it), r, d.o, d.tmo == After);
    } else if d.OpRcvDtq? {
      JoinWaits(s, s, r, RcvQ(s, d.o), d.tmo == After);
    } else if d.OpGetMpf? {
      JoinWaits(s, s, r, d.o, d.tmo == After);
    }
  }
}
