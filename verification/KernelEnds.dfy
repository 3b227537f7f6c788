/** How a wait ends: for every task that waits and every call or tick, whether the wait ends,
    and with which result. */
module KernelEnds {
  import opened Lists
  import opened KernelSpec
  import opened KernelFlags
  import opened KernelInv
  import opened KernelKeeps
  import opened KernelMutex
  import opened KernelSteps
  import opened KernelTasks
  import opened KernelData
  import opened KernelRest
  import opened KernelResults
  import opened KernelWaits

  // ---- who is served, released, timed out -------------------------------------------------------

  predicate First(q: seq<Tid>, t: Tid) {
    q != [] && q[0] == t
  }

  predicate On(s: State, t: Tid, q: nat)
    requires t < |s.tcb|
  {
    q < |s.wq| && s.tcb[t].tstat.Waiting? && s.tcb[t].tstat.on == Wobj(q)
  }

  /** t is the task that waits first on queue q. */
  predicate Next(s: State, t: Tid, q: nat)
    requires t < |s.tcb|
  {
    On(s, t, q) && First(s.wq[q], t)
  }

  /** set_flg releases t: its condition is met by the joined pattern and, with TA_CLR, no
      task before it takes the pattern. */
  ghost predicate Released(s: State, o: nat, setptn: bv32, t: Tid)
    requires Shape(s) && t < |s.tcb|
  {
    IsFlg(s, o) && On(s, t, o) && exists ptn ::
      && Joined(ptn, s.objs[o].ptn, setptn) && Meets(ptn, s.tcb[t].waiptn, s.tcb[t].orw)
      && (s.inib[o].clr ==> forall u :: 0 <= u < |s.tcb| && Before(s.wq[o], u, t) ==>
            !Meets(ptn, s.tcb[u].waiptn, s.tcb[u].orw))
  }

  /** The end of task u makes t the owner of a mutex u holds. */
  predicate Heir(s: State, u: Tid, t: Tid)
    requires Shape(s) && t < |s.tcb|
  {
    && u < |s.tcb| && s.tcb[t].tstat.Waiting? && s.tcb[t].tstat.on.Wobj?
    && var m := s.tcb[t].tstat.on.q; m in s.tcb[u].held && m < |s.wq| && First(Remove(s.wq[m], u), t)
  }

  function If(b: bool, er: Er): Option<Er> {
    if b then Some(er) else None
  }

  /** The result with which the call or tick ends the wait of t, if it does. */
  ghost function EndOf(s: State, op: Op, t: Tid): Option<Er>
    requires Shape(s) && t < |s.tcb| && s.tcb[t].tstat.Waiting?
  {
    var on := s.tcb[t].tstat.on;
    match op
    case IntEnter => None
    case Int(i) => if !s.intctx then None else EndInt(s, i, t)
    case Manage(m) =>
      if !Called(s, op) then None
      else if m.OpRelWai? then If(m.t == t, E_RLWAI)
      else if m.OpWupTsk? then If(m.t == t && on == Slp, E_OK)
      else if m.OpTerTsk? then If(Some(m.t) != s.run && Heir(s, m.t, t), E_OK)
      else if m.OpExtTsk? then If(Heir(s, s.run.value, t), E_OK)
      else None
    case Sync(y) =>
      if !Called(s, op) then None
      else if y.OpSigSem? then If(IsSem(s, y.o) && Next(s, t, y.o), E_OK)
      else if y.OpSetFlg? then If(Released(s, y.o, y.ptn, t), E_OK)
      else if y.OpUnlMtx? then If(IsMtx(s, y.o) && s.objs[y.o].loctsk == s.run && Next(s, t, y.o), E_OK)
      else if y.OpIniSem? then If(IsSem(s, y.o) && On(s, t, y.o), E_DLT)
      else if y.OpIniFlg? then If(IsFlg(s, y.o) && On(s, t, y.o), E_DLT)
      else if y.OpIniMtx? then If(IsMtx(s, y.o) && On(s, t, y.o), E_DLT)
      else None
    case Data(d) =>
      if !Called(s, op) then None
      else if d.OpSndDtq? || d.OpPsndDtq? then
        If(IsDtq(s, d.o) && !BadPri(s, d.o, d.it) && Next(s, t, |s.inib| + d.o), E_OK)
      else if d.OpFsndDtq? then If(Forcible(s, d.o) && Next(s, t, |s.inib| + d.o), E_OK)
      else if d.OpRcvDtq? || d.OpPrcvDtq? then If(IsDtq(s, d.o) && Next(s, t, d.o), E_OK)
      else if d.OpIniDtq? then If(IsDtq(s, d.o) && (On(s, t, d.o) || On(s, t, |s.inib| + d.o)), E_DLT)
      else if d.OpRelMpf? then If(IsMpf(s, d.o) && d.b in s.objs[d.o].pool.alloc && Next(s, t, d.o), E_OK)
      else if d.OpIniMpf? then If(IsMpf(s, d.o) && On(s, t, d.o), E_DLT)
      else None
  }

  predicate BadPri(s: State, o: nat, it: Item)
    requires IsDtq(s, o)
  {
    s.inib[o].prio && (it.pri < 1 || it.pri > s.inib[o].maxdpri)
  }

  /** fsnd_dtq does something on o. */
  predicate Forcible(s: State, o: nat) {
    IsDtq(s, o) && !s.inib[o].prio && s.inib[o].dtqcnt > 0
  }

  ghost function EndInt(s: State, i: IntOp, t: Tid): Option<Er>
    requires Shape(s) && t < |s.tcb| && s.tcb[t].tstat.Waiting?
  {
    var on := s.tcb[t].tstat.on;
    match i
    case OpTimeout(u) => If(u == t && s.tcb[t].tmo, if on == Dly then E_OK else E_TMOUT)
    case OpIRelWai(u) => If(u == t, E_RLWAI)
    case OpIWupTsk(u) => If(u == t && on == Slp, E_OK)
    case OpISigSem(o) => If(IsSem(s, o) && Next(s, t, o), E_OK)
    case OpISetFlg(o, ptn) => If(Released(s, o, ptn, t), E_OK)
    case OpIpsndDtq(o, it) => If(IsDtq(s, o) && !BadPri(s, o, it) && Next(s, t, |s.inib| + o), E_OK)
    case OpIfsndDtq(o, it) => If(Forcible(s, o) && Next(s, t, |s.inib| + o), E_OK)
    case OpIActTsk(_) => None
    case OpIRotRdq(_) => None
    case OpIntExit => None
  }

  /** The wait goes on with what it is for; the task may be suspended or resumed meanwhile. */
  predicate GoesOn(v: Tcb, v1: Tcb) {
    && v.tstat.Waiting? && v1.tstat.Waiting? && v1.tstat.on == v.tstat.on && v1.tmo == v.tmo && v1.wercd == v.wercd
    && v1.waiptn == v.waiptn && v1.orw == v.orw && v1.flgptn == v.flgptn && v1.item == v.item
  }

  /** t waits in s; in s1 its wait has ended with e, or goes on as it was. */
  ghost predicate Fate(s: State, s1: State, t: Tid, e: Option<Er>) {
    && t < |s.tcb| == |s1.tcb| && s.tcb[t].tstat.Waiting?
    && var v, v1 := s.tcb[t], s1.tcb[t];
      match e
      case Some(er) => v1.wercd == er && v1.tstat == if v.tstat.susp then Suspended else Runnable
      case None => GoesOn(v, v1) && v1.tstat == v.tstat
  }

  // ---- the building blocks ------------------------------------------------------------------

  lemma SettleFate(s: State, s1: State, t: Tid, e: Option<Er>)
    requires Fate(s, s1, t, e)
    ensures Fate(s, Settle(s1), t, e)
  {
  }

  lemma WakeFate(s: State, u: Tid, er: Er, t: Tid)
    requires Shape(s) && u < |s.tcb| && s.tcb[u].tstat.Waiting? && t < |s.tcb| && s.tcb[t].tstat.Waiting?
    ensures Fate(s, Wake(s, u, er), t, If(u == t, er))
    ensures u != t ==> Wake(s, u, er).tcb[t] == s.tcb[t]
  {
    hide Remove;
  }

  /** Who waits on a queue stands in it. */
  lemma OnQueue(s: State, t: Tid, q: nat)
    requires Links(s, {}) && t < |s.tcb| && q < |s.wq|
    ensures On(s, t, q) <==> t in s.wq[q]
    ensures s.wq[q] != [] ==> s.wq[q][0] < |s.tcb| && On(s, s.wq[q][0], q)
  {
    hide ReadyOk, OrderOk, EvtOk;
    if s.wq[q] != [] {
      assert s.wq[q][0] in s.wq[q];
    }
  }

  lemma WakeHeadFate(s: State, q: nat, t: Tid)
    requires Links(s, {}) && q < |s.wq| && s.wq[q] != [] && t < |s.tcb| && s.tcb[t].tstat.Waiting?
    ensures Fate(s, WakeHead(s, q), t, If(Next(s, t, q), E_OK))
  {
    hide ReadyOk, WaitOk, OrderOk, EvtOk, Wake;
    OnQueue(s, t, q);
    WakeFate(s, s.wq[q][0], E_OK, t);
  }

  lemma WakeAllFate(s: State, q: nat, t: Tid)
    requires Links(s, {}) && q < |s.wq| && t < |s.tcb| && s.tcb[t].tstat.Waiting?
    ensures Fate(s, WakeAll(s, s.wq[q]), t, If(On(s, t, q), E_DLT))
    ensures !On(s, t, q) ==> WakeAll(s, s.wq[q]).tcb[t] == s.tcb[t]
  {
    hide ReadyOk, WaitOk, OrderOk, EvtOk, WakeAll;
    OnQueue(s, t, q);
    QueueWaiting(s, q, {});
    WakeAllEffect(s, s.wq[q], {});
  }

  lemma ChangeFate(s: State, u: Tid, newpri: Pri, mtxmode: bool, t: Tid)
    requires Shape(s) && u < |s.tcb| && t < |s.tcb| && s.tcb[t].tstat.Waiting?
    ensures Fate(s, ChangePriority(s, u, newpri, mtxmode), t, None)
    ensures ChangePriority(s, u, newpri, mtxmode).tcb[t].tstat == s.tcb[t].tstat
  {
    hide ChangePriority;
    ChangeForm(s, u, newpri, mtxmode);
  }

  lemma JoinFate(s: State, r: Tid, q: nat, timed: bool, t: Tid)
    requires Shape(s) && r < |s.tcb| && q < |s.wq| && t < |s.tcb| && s.tcb[t].tstat.Waiting? && t != r
    ensures Fate(s, WobjMakeWait(s, r, q, timed), t, None) && WobjMakeWait(s, r, q, timed).tcb[t] == s.tcb[t]
  {
    hide Remove, InsertTpri;
  }

  lemma SameFate(s: State, s1: State, t: Tid)
    requires t < |s.tcb| == |s1.tcb| && s.tcb[t].tstat.Waiting? && s1.tcb[t] == s.tcb[t]
    ensures Fate(s, s1, t, None)
  {
  }

  // ---- mutexes ------------------------------------------------------------------------------

  lemma DropFields(s: State, u: Tid, oldpri: Pri, t: Tid)
    requires Shape(s) && u < |s.tcb| && t < |s.tcb|
    ensures var v, v1 := s.tcb[t], DropPriority(s, u, oldpri).tcb[t]; v1 == v.(held := v1.held, pri := v1.pri)
  {
    hide ChangePriority, CalcPri;
    ChangeForm(s, u, CalcPri(s.inib, s.tcb[u].bpri, s.tcb[u].held), true);
  }

  lemma UnholdFields(s: State, u: Tid, m: nat, t: Tid)
    requires Shape(s) && u < |s.tcb| && IsMtx(s, m) && t < |s.tcb|
    ensures var v, v1 := s.tcb[t], Unhold(s, u, m).tcb[t]; v1 == v.(held := v1.held, pri := v1.pri)
  {
    hide DropPriority, Remove;
    var s1 := SetHeld(s, u, Remove(s.tcb[u].held, m));
    if IsCeil(s.inib, m) {
      DropFields(s1, u, Ceil(s.inib, m), t);
    }
  }

  lemma AcquireFate(s: State, r: Tid, m: nat, t: Tid)
    requires Shape(s) && r < |s.tcb| && IsMtx(s, m) && t < |s.tcb| && s.tcb[t].tstat.Waiting? && t != r
    ensures Fate(s, MutexAcquire(s, r, m), t, None)
  {
    hide ChangePriority;
    var s1 := SetHeld(SetOwner(s, m, Some(r)), r, [m] + s.tcb[r].held);
    if IsCeil(s.inib, m) {
      ChangeFate(s1, r, Ceil(s.inib, m), true, t);
    }
  }

  /** mutex_release makes the first waiting task, and only it, the owner. */
  lemma ReleaseFate(s: State, m: nat, ex: set<Tid>, t: Tid)
    requires Links(s, ex) && IsMtx(s, m) && t < |s.tcb|
    ensures var s1 := MutexRelease(s, m);
      && |s1.tcb| == |s.tcb| && s1.inib == s.inib && |s1.wq| == |s.wq|
      && (forall q :: 0 <= q < |s.wq| && q != m ==> s1.wq[q] == s.wq[q])
      && (Next(s, t, m) ==> Fate(s, s1, t, Some(E_OK)) && s1.objs == s.objs[m := MtxCb(Some(t))])
      && (!Next(s, t, m) ==> s1.tcb[t] == s.tcb[t])
      && (s.wq[m] == [] ==> s1.objs == s.objs[m := MtxCb(None)])
  {
    hide ReadyOk, OrderOk, EvtOk, MutexRelease, Remove;
    if s.wq[m] != [] {
      assert s.wq[m][0] in s.wq[m];
      ReleaseForm(s, m);
    } else {
      ReleasedFree(s, m);
    }
  }

  lemma ReleasedFree(s: State, m: nat)
    requires Shape(s) && IsMtx(s, m) && s.wq[m] == []
    ensures MutexRelease(s, m) == SetOwner(s, m, None)
  {
  }

  lemma UnlMtxFate(s: State, r: Tid, m: nat, t: Tid)
    requires Inv(s) && s.run == Some(r) && t < |s.tcb| && s.tcb[t].tstat.Waiting?
    ensures Fate(s, UnlMtx(s, r, m).0, t, If(IsMtx(s, m) && s.objs[m].loctsk == Some(r) && Next(s, t, m), E_OK))
  {
    hide ReadyOk, WaitOk, OrderOk, EvtOk, OwnOk, PriOk, ObjOk, MutexRelease, Unhold, Next, Fate;
    if IsMtx(s, m) && s.objs[m].loctsk == Some(r) {
      HandedFate(s, r, m, t);
      SettleFate(s, MutexRelease(Unhold(s, r, m), m), t, If(Next(s, t, m), E_OK));
    } else {
      SameFate(s, s, t);
    }
  }

  lemma HandedFate(s: State, r: Tid, m: nat, t: Tid)
    requires Core(s) && r < |s.tcb| && s.tcb[r].tstat.Runnable? && IsMtx(s, m) && s.objs[m].loctsk == Some(r)
    requires t < |s.tcb| && s.tcb[t].tstat.Waiting?
    ensures Fate(s, MutexRelease(Unhold(s, r, m), m), t, If(Next(s, t, m), E_OK))
  {
    hide ReadyOk, WaitOk, OrderOk, EvtOk, OwnOk, PriOk, ObjOk, MutexRelease, Unhold, Remove, CalcPri;
    var s1 := Unhold(s, r, m);
    UnholdForm(s, r, m);
    UnholdGood(s, r, m);
    UnholdFields(s, r, m, t);
    ReleaseFate(s1, m, {}, t);
  }

  lemma IniMtxFate(s: State, m: nat, t: Tid)
    requires Inv(s) && IsMtx(s, m) && t < |s.tcb| && s.tcb[t].tstat.Waiting?
    ensures Fate(s, IniMtx(s, m).0, t, If(On(s, t, m), E_DLT))
  {
    hide ReadyOk, WaitOk, OrderOk, EvtOk, OwnOk, PriOk, ObjOk, WakeAll, Unhold;
    WakeAllFate(s, m, t);
    var s1 := WakeAll(s, s.wq[m]);
    StripFields(s1, m, t);
  }

  lemma StripFields(s: State, m: nat, t: Tid)
    requires Shape(s) && IsMtx(s, m) && t < |s.tcb|
    ensures var v, v1 := s.tcb[t], Strip(s, m).tcb[t]; v1 == v.(held := v1.held, pri := v1.pri)
  {
    hide Unhold;
    if s.objs[m].loctsk.Some? && s.objs[m].loctsk.value < |s.tcb| {
      UnholdFields(s, s.objs[m].loctsk.value, m, t);
    }
  }

  // ---- the end of a task --------------------------------------------------------------------

  /** What happens to another task when the mutexes ms are released. */
  ghost predicate Passed(s: State, s1: State, ms: seq<nat>, t: Tid)
    requires t < |s.tcb|
  {
    && |s1.tcb| == |s.tcb|
    && if exists m :: m in ms && Next(s, t, m) then Fate(s, s1, t, Some(E_OK)) else s1.tcb[t] == s.tcb[t]
  }

  lemma {:induction false} ReleaseAllFate(s: State, u: Tid, ex: set<Tid>, t: Tid)
    requires Good(s, ex, {}) && ObjsOk(s) && u < |s.tcb| && u in ex && t < |s.tcb| && t != u
    ensures Passed(s, ReleaseAll(s, u, s.tcb[u].held), s.tcb[u].held, t)
    decreases |s.tcb[u].held|
  {
    hide ReadyOk, WaitOk, OrderOk, EvtOk, OwnOk, PriOk, ObjOk, MutexRelease;
    var ms := s.tcb[u].held;
    if ms != [] {
      HeldOnce(s, u);
      PopGood(s, u, ex);
      var s1 := SetHeld(s, u, ms[1..]);
      ReleaseGood(s1, ms[0], ex);
      ReleaseFate(s1, ms[0], ex, t);
      var s2 := MutexRelease(s1, ms[0]);
      ReleaseAllFate(s2, u, ex, t);
      PassedMore(s, s1, s2, ReleaseAll(s, u, ms), ms, t);
    }
  }

  lemma HeldOnce(s: State, u: Tid)
    requires OwnOk(s, {}) && u < |s.tcb|
    ensures NoDup(s.tcb[u].held)
  {
  }

  lemma PassedMore(s: State, s1: State, s2: State, s3: State, ms: seq<nat>, t: Tid)
    requires ms != [] && NoDup(ms) && t < |s.tcb| == |s1.tcb| == |s2.tcb| && |s.wq| == |s1.wq| == |s2.wq|
    requires s1.tcb[t] == s.tcb[t] && s1.wq == s.wq
    requires forall q :: 0 <= q < |s.wq| && q != ms[0] ==> s2.wq[q] == s.wq[q]
    requires Next(s1, t, ms[0]) ==> Fate(s1, s2, t, Some(E_OK))
    requires !Next(s1, t, ms[0]) ==> s2.tcb[t] == s1.tcb[t]
    requires Passed(s2, s3, ms[1..], t)
    ensures Passed(s, s3, ms, t)
  {
    assert forall m :: m in ms <==> m == ms[0] || m in ms[1..];
    assert forall m :: m in ms[1..] ==> m != ms[0] by {
      forall m | m in ms[1..] ensures m != ms[0] {
        var i :| 0 <= i < |ms[1..]| && ms[1..][i] == m;
        assert ms[i + 1] == m;
      }
    }
    assert forall m :: m in ms[1..] ==> (Next(s2, t, m) ==> Next(s, t, m));
    if !Next(s, t, ms[0]) {
      assert forall m :: m in ms[1..] ==> (Next(s2, t, m) <==> Next(s, t, m));
    }
  }

  lemma FinishFate(s: State, u: Tid, t: Tid)
    requires Good(s, {u}, {}) && ObjsOk(s) && u < |s.tcb| && t < |s.tcb| && t != u
    ensures Passed(s, Finish(s, u), s.tcb[u].held, t)
  {
    hide ReadyOk, WaitOk, OrderOk, EvtOk, OwnOk, PriOk, ObjOk, ReleaseAll;
    ReleaseAllFate(s, u, {u}, t);
    var s1 := ReleaseAll(s, u, s.tcb[u].held);
    OthersStay(s1, u, t);
  }

  lemma OthersStay(s: State, u: Tid, t: Tid)
    requires Shape(s) && u < |s.tcb| && t < |s.tcb| && t != u
    ensures Restart(MakeDormant(s, u), u).tcb[t] == s.tcb[t]
  {
  }

  /** Once u is off its queue, the first waiting task of each mutex it holds is an heir. */
  lemma HeirIs(s: State, s1: State, u: Tid, t: Tid)
    requires Shape(s) && u < |s.tcb| && t < |s.tcb| && s1.tcb == s.tcb && |s1.wq| == |s.wq|
    requires forall q :: 0 <= q < |s.wq| ==> s1.wq[q] == Remove(s.wq[q], u)
    requires forall m :: m in s.tcb[u].held ==> IsMtx(s, m)
    ensures Heir(s, u, t) <==> exists m :: m in s.tcb[u].held && Next(s1, t, m)
  {
    hide Remove;
    if Heir(s, u, t) {
      assert Next(s1, t, s.tcb[t].tstat.on.q);
    }
  }

  lemma DetachedQueues(s: State, u: Tid)
    requires Links(s, {}) && u < |s.tcb|
    ensures var s1 := Detach(s, u);
      && s1.tcb == s.tcb && |s1.wq| == |s.wq|
      && forall q :: 0 <= q < |s.wq| ==> s1.wq[q] == Remove(s.wq[q], u)
  {
    hide ReadyOk, WaitOk, OrderOk, EvtOk, Remove, Detach;
    forall q | 0 <= q < |s.wq| ensures Detach(s, u).wq[q] == Remove(s.wq[q], u) {
      DetachQueue(s, u, q);
      if !WaitsOn(s.tcb[u], q) {
        NotInQueue(s, u, q);
        RemoveAbsent(s.wq[q], u);
      }
    }
    DetachTcb(s, u);
  }

  lemma DetachTcb(s: State, u: Tid)
    requires Shape(s) && u < |s.tcb|
    ensures Detach(s, u).tcb == s.tcb && |Detach(s, u).wq| == |s.wq|
  {
  }

  lemma HoldsMutexes(s: State, u: Tid)
    requires OwnOk(s, {}) && u < |s.tcb|
    ensures forall m :: m in s.tcb[u].held ==> IsMtx(s, m)
  {
  }

  lemma EndedFate(s: State, u: Tid, t: Tid)
    requires Core(s) && u < |s.tcb| && !s.tcb[u].tstat.Dormant? && t < |s.tcb| && t != u && s.tcb[t].tstat.Waiting?
    ensures Fate(s, Settle(Finish(Detach(s, u), u)), t, If(Heir(s, u, t), E_OK))
  {
    hide ReadyOk, WaitOk, OrderOk, EvtOk, OwnOk, PriOk, ObjOk, Finish, Detach, Heir, Next;
    DetachGood(s, u);
    DetachedQueues(s, u);
    HoldsMutexes(s, u);
    FinishFate(Detach(s, u), u, t);
    HeirIs(s, Detach(s, u), u, t);
  }

  lemma ExtTskFate(s: State, r: Tid, t: Tid)
    requires Inv(s) && s.run == Some(r) && t < |s.tcb| && s.tcb[t].tstat.Waiting?
    ensures Fate(s, ExtTsk(s, r).0, t, If(Heir(s, r, t), E_OK))
  {
    hide ReadyOk, WaitOk, OrderOk, EvtOk, OwnOk, PriOk, ObjOk, Finish;
    var s1 := s.(disdsp := false, ipmflg := true, dspflg := true);
    FlagsCore(s, s1);
    EndedFate(s1, r, t);
    assert Detach(s1, r) == MakeNonRunnable(s1, r);
  }

  // ---- event flags --------------------------------------------------------------------------

  lemma JoinedOnce(a: bv32, b: bv32, ptn: bv32, more: bv32)
    requires Joined(a, ptn, more) && Joined(b, ptn, more)
    ensures a == b
  {
    hide IsBit, Has;
    SameBits(a, b);
  }

  lemma SetFlgFate(s: State, o: nat, setptn: bv32, t: Tid)
    requires Core(s) && IsFlg(s, o) && t < |s.tcb| && s.tcb[t].tstat.Waiting?
    ensures Fate(s, SetFlg(s, o, setptn).0, t, If(Released(s, o, setptn, t), E_OK))
  {
    hide ReadyOk, WaitOk, OrderOk, EvtOk, OwnOk, PriOk, ObjOk, SetFlg, Joined, Meets;
    OnQueue(s, t, o);
    if !s.inib[o].clr {
      var ptn := SetFlgReleases(s, o, setptn, t);
      forall p | Joined(p, s.objs[o].ptn, setptn) ensures p == ptn {
        JoinedOnce(p, ptn, s.objs[o].ptn, setptn);
      }
    } else {
      SetFlgFirstFate(s, o, setptn, t);
    }
  }

  lemma SetFlgFirstFate(s: State, o: nat, setptn: bv32, t: Tid)
    requires Core(s) && IsFlg(s, o) && s.inib[o].clr && t < |s.tcb| && s.tcb[t].tstat.Waiting?
    requires On(s, t, o) <==> t in s.wq[o]
    ensures Fate(s, SetFlg(s, o, setptn).0, t, If(Released(s, o, setptn, t), E_OK))
  {
    hide ReadyOk, OrderOk, EvtOk, OwnOk, PriOk, ObjOk, SetFlg, Joined, Meets, Released;
    var ptn := SetFlgReleasesFirst(s, o, setptn);
    var s0 := s.(objs := s.objs[o := FlgCb(ptn)]);
    FirstIs(s, s0, o, setptn, ptn, t);
  }

  lemma FirstIs(s: State, s0: State, o: nat, setptn: bv32, ptn: bv32, t: Tid)
    requires Shape(s) && IsFlg(s, o) && s.inib[o].clr && t < |s.tcb| && NoDup(s.wq[o])
    requires On(s, t, o) <==> t in s.wq[o]
    requires forall i :: 0 <= i < |s.wq[o]| ==> s.wq[o][i] < |s.tcb|
    requires Joined(ptn, s.objs[o].ptn, setptn) && s0 == s.(objs := s.objs[o := FlgCb(ptn)]) && Shape(s0)
    ensures var q := s.wq[o]; var k := FirstHit(s0, o, q); Released(s, o, setptn, t) <==> k < |q| && q[k] == t
  {
    hide Joined, Meets, FirstHit;
    var q := s.wq[o];
    var k := FirstHit(s0, o, q);
    if Released(s, o, setptn, t) {
      var p :| Joined(p, s.objs[o].ptn, setptn) && Meets(p, s.tcb[t].waiptn, s.tcb[t].orw)
        && (forall u :: 0 <= u < |s.tcb| && Before(q, u, t) ==> !Meets(p, s.tcb[u].waiptn, s.tcb[u].orw));
      JoinedOnce(p, ptn, s.objs[o].ptn, setptn);
      var i :| 0 <= i < |q| && q[i] == t;
      forall j | 0 <= j < i ensures !Meets(ptn, s.tcb[q[j]].waiptn, s.tcb[q[j]].orw) {
        assert Before(q, q[j], t);
      }
    }
    if k < |q| && q[k] == t {
      forall u | 0 <= u < |s.tcb| && Before(q, u, t) ensures !Meets(ptn, s.tcb[u].waiptn, s.tcb[u].orw) {
        var i, j :| 0 <= i < j < |q| && q[i] == u && q[j] == t;
      }
    }
  }

  // ---- data queues and pools ------------------------------------------------------------------

  lemma HandOverFate(s: State, q: nat, it: Item, t: Tid)
    requires Core(s) && q < |s.wq| && s.wq[q] != [] && s.wq[q][0] < |s.tcb|
    requires t < |s.tcb| && s.tcb[t].tstat.Waiting?
    ensures Shape(SetItem(s, s.wq[q][0], it))
    ensures Fate(s, WakeHead(SetItem(s, s.wq[q][0], it), q), t, If(Next(s, t, q), E_OK))
  {
    hide ReadyOk, WaitOk, OrderOk, EvtOk, OwnOk, PriOk, ObjOk, WakeHead;
    var u := s.wq[q][0];
    ItemCore(s, u, it);
    OnQueue(s, t, q);
    WakeHeadFate(SetItem(s, u, it), q, t);
  }

  lemma SendFate(s: State, o: nat, it: Item, t: Tid)
    requires Core(s) && IsDtq(s, o) && t < |s.tcb| && s.tcb[t].tstat.Waiting?
    ensures SendData(s, o, it).Some? ==> Fate(s, SendData(s, o, it).value, t, If(Next(s, t, |s.inib| + o), E_OK))
    ensures SendData(s, o, it).None? ==> !Next(s, t, |s.inib| + o)
    ensures Fate(s, ForceSendData(s, o, it), t, If(Next(s, t, |s.inib| + o), E_OK))
  {
    hide ReadyOk, WaitOk, OrderOk, EvtOk, OwnOk, PriOk, ObjOk, WakeHead, AddItem, ForceItem;
    if s.wq[RcvQ(s, o)] != [] {
      HeadWaits(s, RcvQ(s, o));
      HandOverFate(s, RcvQ(s, o), it, t);
    }
  }

  lemma ReceiveFate(s: State, o: nat, t: Tid)
    requires Core(s) && IsDtq(s, o) && t < |s.tcb| && s.tcb[t].tstat.Waiting?
    ensures ReceiveData(s, o).Some? ==> Fate(s, ReceiveData(s, o).value.0, t, If(Next(s, t, o), E_OK))
    ensures ReceiveData(s, o).None? ==> !Next(s, t, o)
  {
    hide ReadyOk, WaitOk, OrderOk, EvtOk, OwnOk, PriOk, ObjOk, WakeHead, AddItem;
    if s.wq[o] != [] {
      HeadWaits(s, o);
      WakeHeadFate(s, o, t);
      if s.objs[o].items != [] {
        var cb := DtqCb(AddItem(s.inib[o].prio, s.objs[o].items[1..], s.tcb[s.wq[o][0]].item));
        WakeHeadFate(s.(objs := s.objs[o := cb]), o, t);
      }
    }
  }

  lemma DataFate(s: State, r: Tid, d: DataOp, t: Tid)
    requires Inv(s) && s.run == Some(r) && Called(s, Data(d)) && t < |s.tcb| && s.tcb[t].tstat.Waiting?
    ensures Fate(s, DataStep(s, r, d).0, t, EndOf(s, Data(d), t))
  {
    hide ReadyOk, WaitOk, OrderOk, EvtOk, OwnOk, PriOk, ObjOk, SndDtq, RcvDtq, GetMpf, RelMpf, IniDtq, IniMpf, FsndDtq,
         Settle, Fate, Next, On;
    SameFate(s, s, t);
    match d
    case OpSndDtq(o, it, tmo) => SndDtqFate(s, r, o, it, tmo, t);
    case OpPsndDtq(o, it) => SndDtqFate(s, r, o, it, Pol, t);
    case OpFsndDtq(o, it) => FsndDtqFate(s, o, it, t);
    case OpRcvDtq(o, tmo) => RcvDtqFate(s, r, o, tmo, t);
    case OpPrcvDtq(o) => RcvDtqFate(s, r, o, Pol, t);
    case OpIniDtq(o) => IniDtqFate(s, o, t);
    case OpGetMpf(o, tmo) => GetMpfFate(s, r, o, tmo, t);
    case OpPgetMpf(o) => GetMpfFate(s, r, o, Pol, t);
    case OpRelMpf(o, b) => RelMpfFate(s, o, b, t);
    case OpIniMpf(o) => IniMpfFate(s, o, t);
  }

  lemma SndDtqFate(s: State, r: Tid, o: nat, it: Item, tmo: Tmo, t: Tid)
    requires Core(s) && r < |s.tcb| && t < |s.tcb| && s.tcb[t].tstat.Waiting? && t != r
    ensures Fate(s, SndDtq(s, r, o, it, tmo).0, t, If(IsDtq(s, o) && !BadPri(s, o, it) && Next(s, t, |s.inib| + o), E_OK))
  {
    hide ReadyOk, WaitOk, OrderOk, EvtOk, OwnOk, PriOk, ObjOk, SendData, WobjMakeWait, Next;
    if IsDtq(s, o) {
      SendFate(s, o, it, t);
      JoinFate(SetItem(s, r, it), r, o, tmo == After, t);
    }
  }

  lemma FsndDtqFate(s: State, o: nat, it: Item, t: Tid)
    requires Core(s) && t < |s.tcb| && s.tcb[t].tstat.Waiting?
    ensures Fate(s, FsndDtq(s, o, it).0, t, If(Forcible(s, o) && Next(s, t, |s.inib| + o), E_OK))
    ensures Fate(s, Then(FsndDtq(s, o, it)).0, t, If(Forcible(s, o) && Next(s, t, |s.inib| + o), E_OK))
  {
    hide ReadyOk, WaitOk, OrderOk, EvtOk, OwnOk, PriOk, ObjOk, ForceSendData, Next;
    if IsDtq(s, o) {
      SendFate(s, o, it, t);
    }
  }

  lemma RcvDtqFate(s: State, r: Tid, o: nat, tmo: Tmo, t: Tid)
    requires Core(s) && r < |s.tcb| && t < |s.tcb| && s.tcb[t].tstat.Waiting? && t != r
    ensures Fate(s, RcvDtq(s, r, o, tmo).0, t, If(IsDtq(s, o) && Next(s, t, o), E_OK))
  {
    hide ReadyOk, WaitOk, OrderOk, EvtOk, OwnOk, PriOk, ObjOk, ReceiveData, WobjMakeWait, Next;
    if IsDtq(s, o) {
      ReceiveFate(s, o, t);
      JoinFate(s, r, RcvQ(s, o), tmo == After, t);
    }
  }

  lemma GetMpfFate(s: State, r: Tid, o: nat, tmo: Tmo, t: Tid)
    requires Core(s) && r < |s.tcb| && t < |s.tcb| && s.tcb[t].tstat.Waiting? && t != r
    ensures Fate(s, GetMpf(s, r, o, tmo).0, t, None)
  {
    hide ReadyOk, WaitOk, OrderOk, EvtOk, OwnOk, PriOk, ObjOk, WobjMakeWait;
    if IsMpf(s, o) {
      JoinFate(s, r, o, tmo == After, t);
    }
  }

  lemma RelMpfFate(s: State, o: nat, b: nat, t: Tid)
    requires Core(s) && t < |s.tcb| && s.tcb[t].tstat.Waiting?
    ensures Fate(s, RelMpf(s, o, b).0, t, If(IsMpf(s, o) && b in s.objs[o].pool.alloc && Next(s, t, o), E_OK))
  {
    hide ReadyOk, WaitOk, OrderOk, EvtOk, OwnOk, PriOk, WakeHead, RelBlock;
    if IsMpf(s, o) {
      assert ObjOk(s, o);
      if s.wq[o] != [] {
        HeadWaits(s, o);
        HandOverFate(s, o, Item(b, 0), t);
      }
    }
  }

  /** The initialization of an object that is not a mutex, as far as its first queue goes. */
  lemma IniFate(s: State, o: nat, cb: Cb, t: Tid)
    requires Core(s) && o < |s.inib| && t < |s.tcb| && s.tcb[t].tstat.Waiting?
    ensures var s1 := WakeAll(s, s.wq[o]);
      Fate(s, Settle(s1.(objs := s1.objs[o := cb])), t, If(On(s, t, o), E_DLT))
  {
    hide ReadyOk, WaitOk, OrderOk, EvtOk, OwnOk, PriOk, ObjOk, WakeAll;
    WakeAllFate(s, o, t);
  }

  lemma IniMpfFate(s: State, o: nat, t: Tid)
    requires Core(s) && t < |s.tcb| && s.tcb[t].tstat.Waiting?
    ensures Fate(s, IniMpf(s, o).0, t, If(IsMpf(s, o) && On(s, t, o), E_DLT))
  {
    hide ReadyOk, WaitOk, OrderOk, EvtOk, OwnOk, PriOk, ObjOk, WakeAll, Fate, On;
    SameFate(s, s, t);
    if IsMpf(s, o) {
      IniFate(s, o, MpfCb(NewPool(s.inib[o].blkcnt)), t);
    }
  }

  lemma IniDtqFate(s: State, o: nat, t: Tid)
    requires Core(s) && t < |s.tcb| && s.tcb[t].tstat.Waiting?
    ensures Fate(s, IniDtq(s, o).0, t, If(IsDtq(s, o) && (On(s, t, o) || On(s, t, |s.inib| + o)), E_DLT))
  {
    hide ReadyOk, WaitOk, OrderOk, EvtOk, OwnOk, PriOk, ObjOk, WakeAll;
    if IsDtq(s, o) {
      WakeAllFate(s, o, t);
      WakeAllCore(s, o);
      var s1 := WakeAll(s, s.wq[o]);
      if On(s, t, o) {
        NotWoken(s1, s1.wq[RcvQ(s1, o)], t);
      } else {
        WakeAllFate(s1, RcvQ(s1, o), t);
      }
    }
  }

  /** A task that does not wait is left alone. */
  lemma {:induction false} NotWoken(s: State, ts: seq<Tid>, t: Tid)
    requires Shape(s) && t < |s.tcb| && !s.tcb[t].tstat.Waiting?
    ensures WakeAll(s, ts).tcb[t] == s.tcb[t]
    decreases |ts|
  {
    hide Remove;
    if ts != [] {
      if ts[0] < |s.tcb| && s.tcb[ts[0]].tstat.Waiting? {
        NotWoken(Wake(s, ts[0], E_DLT), ts[1..], t);
      } else {
        NotWoken(s, ts[1..], t);
      }
    }
  }

  // ---- semaphores and the calls on mutexes and flags that wait ------------------------------------

  lemma SigSemFate(s: State, o: nat, t: Tid)
    requires Links(s, {}) && t < |s.tcb| && s.tcb[t].tstat.Waiting?
    ensures Fate(s, SigSem(s, o).0, t, If(IsSem(s, o) && Next(s, t, o), E_OK))
  {
    hide ReadyOk, WaitOk, OrderOk, EvtOk, WakeHead;
    if IsSem(s, o) && s.wq[o] != [] {
      WakeHeadFate(s, o, t);
    }
  }

  lemma WaiSemFate(s: State, r: Tid, o: nat, tmo: Tmo, t: Tid)
    requires Shape(s) && r < |s.tcb| && t < |s.tcb| && s.tcb[t].tstat.Waiting? && t != r
    ensures Fate(s, WaiSem(s, r, o, tmo).0, t, None)
  {
    hide WobjMakeWait;
    if IsSem(s, o) {
      JoinFate(s, r, o, tmo == After, t);
    }
  }

  lemma WaiFlgFate(s: State, r: Tid, o: nat, ptn: bv32, orw: bool, tmo: Tmo, t: Tid)
    requires Shape(s) && r < |s.tcb| && t < |s.tcb| && s.tcb[t].tstat.Waiting? && t != r
    ensures Fate(s, WaiFlg(s, r, o, ptn, orw, tmo).0, t, None)
  {
    hide WobjMakeWait, FlgCond, Fate, Settle, TakePattern;
    SameFate(s, s, t);
    if IsFlg(s, o) {
      TakeFate(s, r, o, t);
      var s1 := s.(tcb := s.tcb[r := s.tcb[r].(waiptn := ptn, orw := orw)]);
      JoinFate(s1, r, o, tmo == After, t);
      SameFate(s, WobjMakeWait(s1, r, o, tmo == After), t);
      SettleFate(s, WobjMakeWait(s1, r, o, tmo == After), t, None);
    }
  }

  lemma TakeFate(s: State, r: Tid, o: nat, t: Tid)
    requires Shape(s) && r < |s.tcb| && IsFlg(s, o) && t < |s.tcb| && s.tcb[t].tstat.Waiting? && t != r
    ensures Fate(s, TakePattern(s, r, o), t, None)
  {
  }

  lemma LocMtxFate(s: State, r: Tid, m: nat, tmo: Tmo, t: Tid)
    requires Shape(s) && r < |s.tcb| && t < |s.tcb| && s.tcb[t].tstat.Waiting? && t != r
    ensures Fate(s, LocMtx(s, r, m, tmo).0, t, None)
  {
    hide WobjMakeWait, MutexAcquire;
    if IsMtx(s, m) {
      AcquireFate(s, r, m, t);
      JoinFate(s, r, m, tmo == After, t);
    }
  }

  lemma IniSyncFate(s: State, o: nat, t: Tid)
    requires Core(s) && t < |s.tcb| && s.tcb[t].tstat.Waiting?
    ensures Fate(s, IniSem(s, o).0, t, If(IsSem(s, o) && On(s, t, o), E_DLT))
    ensures Fate(s, IniFlg(s, o).0, t, If(IsFlg(s, o) && On(s, t, o), E_DLT))
  {
    hide ReadyOk, WaitOk, OrderOk, EvtOk, OwnOk, PriOk, ObjOk, WakeAll, Fate, On;
    SameFate(s, s, t);
    if IsSem(s, o) {
      IniFate(s, o, SemCb(s.inib[o].isemcnt), t);
    }
    if IsFlg(s, o) {
      IniFate(s, o, FlgCb(s.inib[o].iflgptn), t);
    }
  }

  lemma SyncFate(s: State, r: Tid, y: SyncOp, t: Tid)
    requires Inv(s) && s.run == Some(r) && Called(s, Sync(y)) && t < |s.tcb| && s.tcb[t].tstat.Waiting?
    ensures Fate(s, SyncStep(s, r, y).0, t, EndOf(s, Sync(y), t))
  {
    hide ReadyOk, WaitOk, OrderOk, EvtOk, OwnOk, PriOk, ObjOk, LocMtx, UnlMtx, IniMtx, SigSem, WaiSem, IniSem, SetFlg,
         ClrFlg, WaiFlg, IniFlg, Settle, Fate, Next, On, Released;
    SameFate(s, s, t);
    match y
    case OpLocMtx(o, tmo) => LocMtxFate(s, r, o, tmo, t);
    case OpPlocMtx(o) => LocMtxFate(s, r, o, Pol, t);
    case OpUnlMtx(o) => UnlMtxFate(s, r, o, t);
    case OpIniMtx(o) => RefusedIniMtx(s, o); if IsMtx(s, o) { IniMtxFate(s, o, t); }
    case OpSigSem(o) => SigSemFate(s, o, t); SettleFate(s, SigSem(s, o).0, t, EndOf(s, Sync(y), t));
    case OpWaiSem(o, tmo) => WaiSemFate(s, r, o, tmo, t);
    case OpPolSem(o) => WaiSemFate(s, r, o, Pol, t);
    case OpIniSem(o) => IniSyncFate(s, o, t);
    case OpSetFlg(o, ptn) => FlagFate(s, o, ptn, t); SettleFate(s, SetFlg(s, o, ptn).0, t, EndOf(s, Sync(y), t));
    case OpClrFlg(o, ptn) => ClrFlgFate(s, o, ptn, t);
    case OpWaiFlg(o, w, orw, tmo) => WaiFlgFate(s, r, o, w, orw, tmo, t);
    case OpPolFlg(o, w, orw) => WaiFlgFate(s, r, o, w, orw, Pol, t);
    case OpIniFlg(o) => IniSyncFate(s, o, t);
  }

  lemma RefusedIniMtx(s: State, m: nat)
    requires Shape(s)
    ensures !IsMtx(s, m) ==> IniMtx(s, m).0 == s
  {
  }

  lemma FlagFate(s: State, o: nat, ptn: bv32, t: Tid)
    requires Core(s) && t < |s.tcb| && s.tcb[t].tstat.Waiting?
    ensures Fate(s, SetFlg(s, o, ptn).0, t, If(Released(s, o, ptn, t), E_OK))
  {
    hide ReadyOk, WaitOk, OrderOk, EvtOk, OwnOk, PriOk, ObjOk, FlgWalk, Joined, Meets, Fate;
    if IsFlg(s, o) {
      SetFlgFate(s, o, ptn, t);
    } else {
      SameFate(s, s, t);
    }
  }

  lemma ClrFlgFate(s: State, o: nat, ptn: bv32, t: Tid)
    requires Shape(s) && t < |s.tcb| && s.tcb[t].tstat.Waiting?
    ensures Fate(s, ClrFlg(s, o, ptn).0, t, None)
  {
    hide ClearBits;
  }

  // ---- calls about tasks, interrupts --------------------------------------------------------------

  lemma WupTskFate(s: State, u: Tid, t: Tid)
    requires Core(s) && t < |s.tcb| && s.tcb[t].tstat.Waiting?
    ensures Fate(s, WupTsk(s, u).0, t, If(u == t && s.tcb[t].tstat.on == Slp, E_OK))
    ensures Fate(s, RelWai(s, u).0, t, If(u == t, E_RLWAI))
  {
    hide ReadyOk, WaitOk, OrderOk, EvtOk, OwnOk, PriOk, ObjOk, Wake;
    if u < |s.tcb| && s.tcb[u].tstat.Waiting? {
      WakeFate(s, u, E_OK, t);
      WakeFate(s, u, E_RLWAI, t);
    }
  }

  /** One task is rewritten; if it is t, its wait goes on. */
  lemma RewriteFate(s: State, s1: State, u: Tid, t: Tid)
    requires u < |s.tcb| == |s1.tcb| && s1.tcb == s.tcb[u := s1.tcb[u]] && t < |s.tcb| && s.tcb[t].tstat.Waiting?
    requires u == t ==> GoesOn(s.tcb[u], s1.tcb[u]) && s1.tcb[u].tstat == s.tcb[u].tstat
    ensures Fate(s, s1, t, None) && Fate(s, Settle(s1), t, None)
  {
  }

  lemma ActTskFate(s: State, u: Tid, t: Tid)
    requires Shape(s) && t < |s.tcb| && s.tcb[t].tstat.Waiting?
    ensures Fate(s, ActTsk(s, u).0, t, None)
  {
    hide Fate;
    SameFate(s, s, t);
    if u < |s.tcb| {
      RewriteFate(s, ActTsk(s, u).0, u, t);
    }
  }

  lemma DelTskFate(s: State, u: Tid, t: Tid)
    requires Shape(s) && t < |s.tcb| && s.tcb[t].tstat.Waiting?
    ensures Fate(s, DelTsk(s, u).0, t, None)
  {
    hide Fate;
    SameFate(s, s, t);
    if u < |s.tcb| {
      RewriteFate(s, DelTsk(s, u).0, u, t);
    }
  }

  lemma ForbidFate(s: State, u: Tid, texmask: bool, t: Tid)
    requires Shape(s) && t < |s.tcb| && s.tcb[t].tstat.Waiting?
    ensures Fate(s, DisWai(s, u, texmask).0, t, None) && Fate(s, EnaWai(s, u).0, t, None)
  {
    hide Fate;
    SameFate(s, s, t);
    if u < |s.tcb| {
      ForbidFlag(s, u, true, t);
      ForbidFlag(s, u, false, t);
    }
  }

  lemma ForbidFlag(s: State, u: Tid, fbd: bool, t: Tid)
    requires u < |s.tcb| && t < |s.tcb| && s.tcb[t].tstat.Waiting?
    ensures Fate(s, s.(tcb := s.tcb[u := s.tcb[u].(waifbd := fbd)]), t, None)
  {
  }

  lemma SusTskFate(s: State, r: Tid, u: Tid, t: Tid)
    requires Shape(s) && t < |s.tcb| && s.tcb[t].tstat.Waiting? && u != t
    ensures Fate(s, SusTsk(s, r, u).0, t, None) && Fate(s, RsmTsk(s, u).0, t, None)
  {
    hide Fate, SusTsk, RsmTsk;
    SusOthers(s, r, u, t);
    RsmOthers(s, u, t);
    SameFate(s, SusTsk(s, r, u).0, t);
    SameFate(s, RsmTsk(s, u).0, t);
  }

  lemma SusOthers(s: State, r: Tid, u: Tid, t: Tid)
    requires Shape(s) && t < |s.tcb| && u != t
    ensures var s1 := SusTsk(s, r, u).0; |s1.tcb| == |s.tcb| && s1.tcb[t] == s.tcb[t]
  {
    hide Remove;
  }

  lemma RsmOthers(s: State, u: Tid, t: Tid)
    requires Shape(s) && t < |s.tcb| && u != t
    ensures var s1 := RsmTsk(s, u).0; |s1.tcb| == |s.tcb| && s1.tcb[t] == s.tcb[t]
  {
  }

  /** Suspending and resuming a waiting task leaves its wait alone. */
  lemma ToggleFate(s: State, r: Tid, t: Tid)
    requires Shape(s) && t < |s.tcb| && s.tcb[t].tstat.Waiting?
    ensures var s1 := SusTsk(s, r, t).0; |s1.tcb| == |s.tcb| && GoesOn(s.tcb[t], s1.tcb[t])
    ensures var s1 := RsmTsk(s, t).0; |s1.tcb| == |s.tcb| && GoesOn(s.tcb[t], s1.tcb[t])
  {
    hide GoesOn;
    SuspOnly(s, t, true);
    SuspOnly(s, t, false);
  }

  lemma SuspOnly(s: State, t: Tid, susp: bool)
    requires t < |s.tcb| && s.tcb[t].tstat.Waiting?
    ensures var v := s.tcb[t]; GoesOn(v, v) && GoesOn(v, s.tcb[t := v.(tstat := Waiting(susp, v.tstat.on))][t])
  {
  }

  lemma ChgPriFate(s: State, r: Tid, u: Tid, p: Option<Pri>, t: Tid)
    requires Shape(s) && r < |s.tcb| && t < |s.tcb| && s.tcb[t].tstat.Waiting?
    ensures Fate(s, ChgPri(s, r, u, p).0, t, None)
  {
    hide ChangePriority, Fate, Settle, CheckCeilpri, ScanCeilmtx;
    SameFate(s, s, t);
    if u < |s.tcb| {
      var newb := if p.None? then s.tcb[u].ini.ipri else p.value;
      RebasedFate(s, u, newb, t);
    }
  }

  lemma RebasedFate(s: State, u: Tid, newb: Pri, t: Tid)
    requires Shape(s) && u < |s.tcb| && t < |s.tcb| && s.tcb[t].tstat.Waiting?
    ensures var s1 := s.(tcb := s.tcb[u := s.tcb[u].(bpri := newb)]);
      Fate(s, s1, t, None) && Fate(s, Settle(ChangePriority(s1, u, newb, false)), t, None)
  {
    hide ChangePriority;
    ChangeForm(s.(tcb := s.tcb[u := s.tcb[u].(bpri := newb)]), u, newb, false);
  }

  lemma AcreFate(s: State, ipri: Pri, act: bool, t: Tid)
    requires Core(s) && t < |s.tcb| && s.tcb[t].tstat.Waiting?
    ensures Fate(s, AcreTsk(s, ipri, act).0, t, None)
  {
    hide ReadyOk, WaitOk, OrderOk, EvtOk, OwnOk, PriOk, ObjOk, NoDup;
    if s.freeTcb != [] {
      assert s.freeTcb[0] in s.freeTcb;
    }
  }

  lemma SleepFate(s: State, r: Tid, tmo: Tmo, t: Tid)
    requires Shape(s) && r < |s.tcb| && t < |s.tcb| && s.tcb[t].tstat.Waiting? && t != r
    ensures Fate(s, SlpTsk(s, r, tmo).0, t, None) && Fate(s, DlyTsk(s, r).0, t, None)
  {
    hide Fate, MakeWait, Settle;
    SameFate(s, s, t);
    SameFate(s, s.(tcb := s.tcb[r := s.tcb[r].(wupque := false)]), t);
    AsleepFate(s, r, Slp, tmo == After, t);
    AsleepFate(s, r, Dly, true, t);
  }

  lemma AsleepFate(s: State, r: Tid, on: WaitOn, timed: bool, t: Tid)
    requires Shape(s) && r < |s.tcb| && t < |s.tcb| && s.tcb[t].tstat.Waiting? && t != r
    ensures Fate(s, Settle(MakeWait(s, r, on, timed)), t, None)
  {
  }

  lemma TerTskFate(s: State, r: Tid, u: Tid, t: Tid)
    requires Inv(s) && s.run == Some(r) && t < |s.tcb| && s.tcb[t].tstat.Waiting? && u != t
    ensures Fate(s, TerTsk(s, r, u).0, t, If(u != r && Heir(s, u, t), E_OK))
  {
    hide ReadyOk, WaitOk, OrderOk, EvtOk, OwnOk, ObjOk, Finish, Detach, Heir, Fate;
    SameFate(s, s, t);
    if u < |s.tcb| {
      if !s.tcb[u].tstat.Dormant? {
        EndedFate(s, u, t);
      } else {
        NoHeirs(s, u, t);
      }
    } else {
      NoHeirs(s, u, t);
    }
  }

  /** A task that is not there holds nothing. */
  lemma NoHeirs(s: State, u: Tid, t: Tid)
    requires Core(s) && t < |s.tcb| && (u < |s.tcb| ==> s.tcb[u].tstat.Dormant?)
    ensures !Heir(s, u, t)
  {
    hide ReadyOk, WaitOk, OrderOk, EvtOk, OwnOk, ObjOk;
  }

  lemma ManageFate(s: State, r: Tid, m: ManageOp, t: Tid)
    requires Inv(s) && s.run == Some(r) && Called(s, Manage(m)) && t < |s.tcb| && s.tcb[t].tstat.Waiting?
    requires m != OpTerTsk(t) && m != OpSusTsk(t) && m != OpRsmTsk(t)
    ensures Fate(s, ManageStep(s, r, m).0, t, EndOf(s, Manage(m), t))
  {
    hide ReadyOk, WaitOk, OrderOk, EvtOk, OwnOk, PriOk, ObjOk, ActTsk, ExtTsk, TerTsk, ChgPri, AcreTsk, DelTsk, SlpTsk,
         WupTsk, RelWai, SusTsk, RsmTsk, DisWai, EnaWai, DlyTsk, DisDsp, EnaDsp, ChgIpm, RotateReadyQueue, Settle, Fate, Heir;
    match m
    case OpActTsk(u) => ActTskFate(s, u, t); SettleFate(s, ActTsk(s, u).0, t, None);
    case OpExtTsk => ExtTskFate(s, r, t);
    case OpTerTsk(u) => TerTskFate(s, r, u, t);
    case OpChgPri(u, p) => ChgPriFate(s, r, u, p, t);
    case OpAcreTsk(ipri, act) => AcreFate(s, ipri, act, t);
    case OpDelTsk(u) => DelTskFate(s, u, t);
    case OpSlpTsk(tmo) => SleepFate(s, r, tmo, t);
    case OpDlyTsk => SleepFate(s, r, Pol, t);
    case OpWupTsk(u) => WupTskFate(s, u, t); SettleFate(s, WupTsk(s, u).0, t, EndOf(s, Manage(m), t));
    case OpRelWai(u) => WupTskFate(s, u, t); SettleFate(s, RelWai(s, u).0, t, EndOf(s, Manage(m), t));
    case OpSusTsk(u) => SusTskFate(s, r, u, t);
    case OpRsmTsk(u) => SusTskFate(s, r, u, t);
    case OpDisWai(u, texmask) => ForbidFate(s, u, texmask, t);
    case OpEnaWai(u) => ForbidFate(s, u, false, t);
    case OpDisDsp => FlagsFate(s, true, t);
    case OpEnaDsp => FlagsFate(s, true, t);
    case OpChgIpm(enaall) => FlagsFate(s, enaall, t);
    case OpRotRdq(p) => RotateFate(s, if p.None? then s.tcb[r].bpri else p.value, t);
  }

  lemma FlagsFate(s: State, enaall: bool, t: Tid)
    requires t < |s.tcb| && s.tcb[t].tstat.Waiting?
    ensures Fate(s, DisDsp(s), t, None) && Fate(s, EnaDsp(s), t, None) && Fate(s, ChgIpm(s, enaall), t, None)
  {
  }

  lemma RotateFate(s: State, p: Pri, t: Tid)
    requires Shape(s) && t < |s.tcb| && s.tcb[t].tstat.Waiting?
    ensures Fate(s, RotateReadyQueue(s, p), t, None) && Fate(s, Settle(RotateReadyQueue(s, p)), t, None)
  {
  }

  lemma IntFate(s: State, i: IntOp, t: Tid)
    requires Core(s) && t < |s.tcb| && s.tcb[t].tstat.Waiting?
    ensures Fate(s, IntStep(s, i).0, t, EndInt(s, i, t))
  {
    hide ReadyOk, WaitOk, OrderOk, EvtOk, OwnOk, PriOk, ObjOk, ActTsk, WupTsk, RelWai, RotateReadyQueue, SigSem, SetFlg,
         FsndDtq, SendData, Settle, Fate, Next, Released;
    SameFate(s, s, t);
    match i
    case OpIntExit => SettleFate(s, s.(intctx := false), t, None); SameFate(s, s.(intctx := false), t);
    case OpIActTsk(u) => ActTskFate(s, u, t);
    case OpIWupTsk(u) => WupTskFate(s, u, t);
    case OpIRelWai(u) => WupTskFate(s, u, t);
    case OpIRotRdq(p) => RotateFate(s, p, t);
    case OpISigSem(o) => SigSemFate(s, o, t);
    case OpISetFlg(o, ptn) => FlagFate(s, o, ptn, t);
    case OpIpsndDtq(o, it) => if IsDtq(s, o) { SendFate(s, o, it, t); }
    case OpIfsndDtq(o, it) => FsndDtqFate(s, o, it, t);
    case OpTimeout(u) => TimeoutFate(s, u, t);
  }

  lemma TimeoutFate(s: State, u: Tid, t: Tid)
    requires Core(s) && t < |s.tcb| && s.tcb[t].tstat.Waiting?
    ensures Fate(s, IntStep(s, OpTimeout(u)).0, t, EndInt(s, OpTimeout(u), t))
  {
    hide ReadyOk, WaitOk, OrderOk, OwnOk, PriOk, ObjOk, Wake;
    if u in s.evts {
      WakeFate(s, u, if s.tcb[u].tstat.on == Dly then E_OK else E_TMOUT, t);
    }
  }

  // ---- any call, interrupt or tick ------------------------------------------------------------------

  predicate Toggled(op: Op, t: Tid) {
    op == Manage(OpSusTsk(t)) || op == Manage(OpRsmTsk(t))
  }

  /** Whatever happens next, the wait of a task ends if and only if EndOf says so and with the
      result it says; a task suspended meanwhile stays suspended.  Otherwise the wait goes on
      as it was; suspending and resuming the task changes nothing of its wait.  (A task that
      is terminated does not come back from its wait.) */
  lemma WaitEnds(s: State, op: Op, t: Tid)
    requires Inv(s) && t < |s.tcb| && s.tcb[t].tstat.Waiting? && op != Manage(OpTerTsk(t))
    ensures !Toggled(op, t) ==> Fate(s, Step(s, op).0, t, EndOf(s, op, t))
    ensures Toggled(op, t) ==> var s1 := Step(s, op).0; |s1.tcb| == |s.tcb| && GoesOn(s.tcb[t], s1.tcb[t])
  {
    hide ReadyOk, WaitOk, OrderOk, EvtOk, OwnOk, PriOk, ObjOk, ManageStep, SyncStep, DataStep, IntStep, Fate;
    SameFate(s, s, t);
    SameFate(s, s.(intctx := true), t);
    if op.Int? {
      IntFate(s, op.i, t);
    } else if Called(s, op) {
      match op
      case Manage(m) =>
        if Toggled(op, t) {
          ToggleFate(s, s.run.value, t);
          ToggleStep(s, s.run.value, t);
        } else {
          ManageFate(s, s.run.value, m, t);
        }
      case Sync(y) => SyncFate(s, s.run.value, y, t);
      case Data(d) => DataFate(s, s.run.value, d, t);
    }
  }

  lemma ToggleStep(s: State, r: Tid, t: Tid)
    requires Shape(s) && r < |s.tcb|
    ensures ManageStep(s, r, OpSusTsk(t)) == SusTsk(s, r, t) && ManageStep(s, r, OpRsmTsk(t)) == RsmTsk(s, t)
  {
  }
}
