/** What a call leaves alone: an object it is not about keeps its state, its waiting tasks and
    their order; at most the one task a call releases by force, or terminates, is gone. */
module KernelRest {
  import opened Lists
  import opened KernelSpec
  import opened KernelInv
  import opened KernelKeeps
  import opened KernelMutex
  import opened KernelSteps
  import opened KernelTasks
  import opened KernelSync
  import opened KernelData

  /** v waits on o, in the first or the second of its queues. */
  predicate OnIt(s: State, v: Tcb, o: nat) {
    WaitsOn(v, o) || WaitsOn(v, RcvQ(s, o))
  }

  function Without(q: seq<Tid>, x: Option<Tid>): seq<Tid> {
    if x.Some? then Remove(q, x.value) else q
  }

  /** The object o stays as it is, and so do the tasks waiting on it, but for x. */
  ghost predicate Rest(s: State, s1: State, o: nat, x: Option<Tid>) {
    && |s1.tcb| == |s.tcb| && s1.inib == s.inib
    && o < |s.inib| && |s.objs| == |s1.objs| == |s.inib| && |s.wq| == |s1.wq| == 2 * |s.inib|
    && s1.objs[o] == s.objs[o]
    && (!ByPriority(s.inib[o]) ==> s1.wq[o] == Without(s.wq[o], x))
    && (forall t :: 0 <= t < |s.tcb| && Some(t) != x && OnIt(s, s.tcb[t], o) ==>
          s1.tcb[t].tstat.Waiting? && s1.tcb[t].tstat.on == s.tcb[t].tstat.on && s1.tcb[t].item == s.tcb[t].item)
  }

  /** The wait of t on o, if any, did not end with E_OK. */
  ghost predicate Unserved(s: State, s1: State, o: nat, t: Tid) {
    t < |s.tcb| && OnIt(s, s.tcb[t], o) ==> t < |s1.tcb| && s1.tcb[t] != Woken(s.tcb[t], E_OK)
  }

  /** An object other than a mutex. */
  predicate Plain(s: State, o: nat) {
    o < |s.inib| && !IsMtx(s, o)
  }

  lemma RestSame(s: State, o: nat)
    requires Shape(s) && o < |s.inib|
    ensures Rest(s, s, o, None)
  {
  }

  lemma RestSettle(s: State, s1: State, o: nat, x: Option<Tid>)
    requires Rest(s, s1, o, x)
    ensures Rest(s, Settle(s1), o, x)
  {
  }

  lemma RestThen(s: State, s1: State, s2: State, o: nat, x: Option<Tid>)
    requires Rest(s, s1, o, None) && Rest(s1, s2, o, x)
    ensures Rest(s, s2, o, x)
  {
  }

  /** A task that is not on the queues of o leaves nothing behind there. */
  lemma NotOnIt(s: State, s1: State, o: nat, t: Tid)
    requires Rest(s, s1, o, Some(t)) && t !in s.wq[o] && (t < |s.tcb| ==> !OnIt(s, s.tcb[t], o))
    ensures Rest(s, s1, o, None)
  {
    RemoveAbsent(s.wq[o], t);
  }

  // ---- the building blocks ------------------------------------------------------------------

  lemma WakeRest(s: State, t: Tid, er: Er, o: nat)
    requires Links(s, {}) && t < |s.tcb| && s.tcb[t].tstat.Waiting? && o < |s.inib|
    ensures Rest(s, Wake(s, t, er), o, Some(t))
    ensures !OnIt(s, s.tcb[t], o) ==> Rest(s, Wake(s, t, er), o, None)
    ensures er != E_OK ==> Unserved(s, Wake(s, t, er), o, t)
  {
    hide ReadyOk, WaitOk, OrderOk, EvtOk, Wake, Remove;
    WakeQueue(s, t, er, o);
    WakeTasks(s, t, er);
    if !OnIt(s, s.tcb[t], o) {
      NotInQueue(s, t, o);
      RemoveAbsent(s.wq[o], t);
    }
  }

  lemma WakeTasks(s: State, t: Tid, er: Er)
    requires Shape(s) && t < |s.tcb| && s.tcb[t].tstat.Waiting?
    ensures var s1 := Wake(s, t, er);
      s1.tcb == s.tcb[t := Woken(s.tcb[t], er)] && s1.objs == s.objs && s1.inib == s.inib && |s1.wq| == |s.wq|
  {
    hide Remove;
  }

  lemma NotInQueue(s: State, t: Tid, q: nat)
    requires Links(s, {}) && q < |s.wq| && (t < |s.tcb| ==> !WaitsOn(s.tcb[t], q))
    ensures t !in s.wq[q]
  {
    hide ReadyOk, OrderOk, EvtOk;
  }

  lemma WakeQueue(s: State, t: Tid, er: Er, q: nat)
    requires Links(s, {}) && t < |s.tcb| && s.tcb[t].tstat.Waiting? && q < |s.wq|
    ensures Wake(s, t, er).wq[q] == Remove(s.wq[q], t)
  {
    hide ReadyOk, WaitOk, OrderOk, EvtOk, Remove;
    if !WaitsOn(s.tcb[t], q) {
      NotInQueue(s, t, q);
      RemoveAbsent(s.wq[q], t);
    }
  }

  lemma WakeHeadRest(s: State, q: nat, o: nat)
    requires Links(s, {}) && q < |s.wq| && s.wq[q] != [] && o < |s.inib| && q != o && q != RcvQ(s, o)
    ensures Rest(s, WakeHead(s, q), o, None)
  {
    hide ReadyOk, OrderOk, EvtOk, Wake;
    HeadWaits(s, q);
    WakeRest(s, s.wq[q][0], E_OK, o);
  }

  lemma {:induction false} WakeAllRest(s: State, ts: seq<Tid>, o: nat)
    requires Good(s, {}, {}) && o < |s.inib| && AllWaiting(s, ts, {})
    requires forall t :: t in ts ==> t < |s.tcb| && !OnIt(s, s.tcb[t], o)
    ensures Rest(s, WakeAll(s, ts), o, None)
    decreases |ts|
  {
    hide ReadyOk, WaitOk, OrderOk, EvtOk, OwnOk, PriOk, Wake;
    if ts != [] {
      var t := ts[0];
      assert t in ts;
      WakeRest(s, t, E_DLT, o);
      WakeGood(s, t, E_DLT, {}, {});
      WakeEffect(s, t, E_DLT, {});
      TailOf(ts);
      WakeAllRest(Wake(s, t, E_DLT), ts[1..], o);
    }
  }

  lemma QueueRest(s: State, q: nat, o: nat)
    requires Core(s) && q < |s.wq| && o < |s.inib| && q != o && q != RcvQ(s, o)
    ensures Rest(s, WakeAll(s, s.wq[q]), o, None)
  {
    hide ReadyOk, OrderOk, EvtOk, OwnOk, PriOk, ObjOk, WakeAll;
    QueueWaiting(s, q, {});
    WakeAllRest(s, s.wq[q], o);
  }

  lemma WaitRest(s: State, r: Tid, on: WaitOn, tmo: bool, o: nat)
    requires Shape(s) && r < |s.tcb| && s.tcb[r].tstat.Runnable? && o < |s.inib|
    ensures Rest(s, MakeWait(s, r, on, tmo), o, None)
    ensures on.Wobj? && on.q < |s.wq| && on.q != o ==> Rest(s, WobjMakeWait(s, r, on.q, tmo), o, None)
  {
  }

  lemma ChangeRest(s: State, t: Tid, newpri: Pri, mtxmode: bool, o: nat)
    requires Shape(s) && t < |s.tcb| && o < |s.inib|
    ensures Rest(s, ChangePriority(s, t, newpri, mtxmode), o, None)
  {
    hide ChangePriority, InsertTpri;
    ChangeForm(s, t, newpri, mtxmode);
  }

  lemma AcquireRest(s: State, r: Tid, m: nat, o: nat)
    requires Shape(s) && r < |s.tcb| && IsMtx(s, m) && Plain(s, o)
    ensures Rest(s, MutexAcquire(s, r, m), o, None)
  {
    hide ChangePriority;
    var s1 := SetHeld(SetOwner(s, m, Some(r)), r, [m] + s.tcb[r].held);
    if IsCeil(s.inib, m) {
      ChangeRest(s1, r, Ceil(s.inib, m), true, o);
    }
  }

  lemma UnholdRest(s: State, t: Tid, m: nat, o: nat)
    requires Shape(s) && t < |s.tcb| && IsMtx(s, m) && Plain(s, o)
    ensures Rest(s, Unhold(s, t, m), o, None)
  {
    hide ChangePriority;
    var s1 := SetHeld(s, t, Remove(s.tcb[t].held, m));
    ChangeRest(s1, t, CalcPri(s.inib, s.tcb[t].bpri, s1.tcb[t].held), true, o);
  }

  lemma ReleaseRest(s: State, m: nat, ex: set<Tid>, o: nat)
    requires Links(s, ex) && IsMtx(s, m) && Plain(s, o)
    ensures Rest(s, MutexRelease(s, m), o, None)
  {
    hide ReadyOk, WaitOk, OrderOk, EvtOk, MutexRelease;
    if s.wq[m] == [] {
      NobodyWaits(s, m);
    } else {
      HeadOf(s, m, ex);
      ReleaseForm(s, m);
      HandRest(s, MutexRelease(s, m), s.wq[m][0], m, o);
    }
  }

  lemma NobodyWaits(s: State, m: nat)
    requires Shape(s) && IsMtx(s, m) && s.wq[m] == []
    ensures MutexRelease(s, m) == SetOwner(s, m, None)
  {
  }

  lemma HeadOf(s: State, q: nat, ex: set<Tid>)
    requires Links(s, ex) && q < |s.wq| && s.wq[q] != []
    ensures s.wq[q][0] < |s.tcb| && WaitsOn(s.tcb[s.wq[q][0]], q)
  {
    hide ReadyOk, OrderOk, EvtOk;
    assert s.wq[q][0] in s.wq[q];
  }

  /** The head waiter of a mutex becomes its owner. */
  lemma HandRest(s: State, s1: State, t: Tid, m: nat, o: nat)
    requires Shape(s) && Plain(s, o) && IsMtx(s, m) && t < |s.tcb| && WaitsOn(s.tcb[t], m)
    requires s1.inib == s.inib && |s1.tcb| == |s.tcb| && s1.tcb == s.tcb[t := s1.tcb[t]]
    requires s1.wq == LeaveWaiting(s, t).wq && |s1.objs| == |s.objs| && s1.objs == s.objs[m := s1.objs[m]]
    ensures Rest(s, s1, o, None)
  {
  }

  lemma {:induction false} ReleaseAllRest(s: State, t: Tid, ex: set<Tid>, o: nat)
    requires Good(s, ex, {}) && ObjsOk(s) && t < |s.tcb| && t in ex && Plain(s, o)
    ensures Rest(s, ReleaseAll(s, t, s.tcb[t].held), o, None)
    decreases |s.tcb[t].held|
  {
    hide ReadyOk, WaitOk, OrderOk, EvtOk, OwnOk, PriOk, ObjOk, MutexRelease, Rest;
    if s.tcb[t].held != [] {
      var m := s.tcb[t].held[0];
      PopGood(s, t, ex);
      var s1 := SetHeld(s, t, s.tcb[t].held[1..]);
      HeldRest(s, t, s.tcb[t].held[1..], o);
      ReleaseGood(s1, m, ex);
      ReleaseRest(s1, m, ex, o);
      RestThen(s, s1, MutexRelease(s1, m), o, None);
      ReleaseAllRest(MutexRelease(s1, m), t, ex, o);
      RestThen(s, MutexRelease(s1, m), ReleaseAll(s, t, s.tcb[t].held), o, None);
    } else {
      RestSame(s, o);
    }
  }

  lemma HeldRest(s: State, t: Tid, held: seq<nat>, o: nat)
    requires Shape(s) && t < |s.tcb| && o < |s.inib|
    ensures Rest(s, SetHeld(s, t, held), o, None)
  {
  }

  lemma DormantRest(s: State, t: Tid, o: nat)
    requires Shape(s) && t < |s.tcb| && o < |s.inib| && t !in s.wq[o]
    ensures Rest(s, MakeDormant(s, t), o, Some(t)) && Rest(s, Restart(s, t), o, Some(t))
    ensures MakeDormant(s, t).wq == s.wq
  {
    RemoveAbsent(s.wq[o], t);
  }

  /** The fields of a task that has ended: dormant, or started again by the activation
      that was queued. */
  lemma EndedTcb(s: State, t: Tid)
    requires Shape(s) && t < |s.tcb|
    ensures var v := Restart(MakeDormant(s, t), t).tcb[t];
      v.tstat == (if s.tcb[t].actque then Runnable else Dormant) && !v.actque
  {
  }

  lemma LeftThen(s: State, s1: State, s2: State, o: nat, t: Tid)
    requires Rest(s, s1, o, Some(t)) && Rest(s1, s2, o, Some(t)) && t !in s1.wq[o]
    ensures Rest(s, s2, o, Some(t))
  {
    RemoveAbsent(s1.wq[o], t);
  }

  lemma OutOfQueue(s: State, t: Tid, o: nat)
    requires Links(s, {t}) && o < |s.wq|
    ensures t !in s.wq[o]
  {
    hide ReadyOk, OrderOk, EvtOk;
  }

  /** The end of a task that is out of all queues. */
  lemma FinishRest(s: State, t: Tid, o: nat)
    requires Good(s, {t}, {}) && ObjsOk(s) && t < |s.tcb| && Plain(s, o)
    ensures Rest(s, Finish(s, t), o, Some(t))
    ensures Finish(s, t).tcb[t].tstat == (if s.tcb[t].actque then Runnable else Dormant) && !Finish(s, t).tcb[t].actque
  {
    hide ReadyOk, WaitOk, OrderOk, EvtOk, OwnOk, PriOk, ObjOk, ReleaseAll, MakeDormant, Restart, Rest;
    ReleaseAllGood(s, t, {t});
    ReleaseAllRest(s, t, {t}, o);
    var s1 := ReleaseAll(s, t, s.tcb[t].held);
    OutOfQueue(s1, t, o);
    DormantRest(s1, t, o);
    var s2 := MakeDormant(s1, t);
    DormantRest(s2, t, o);
    RestThen(s, s1, s2, o, Some(t));
    LeftThen(s, s2, Restart(s2, t), o, t);
    EndedTcb(s1, t);
  }

  lemma DetachRest(s: State, t: Tid, o: nat)
    requires Links(s, {}) && t < |s.tcb| && o < |s.inib|
    ensures Rest(s, Detach(s, t), o, Some(t)) && Detach(s, t).tcb == s.tcb
  {
    hide ReadyOk, WaitOk, OrderOk, EvtOk, Remove, Rest, Detach;
    if !WaitsOn(s.tcb[t], o) {
      NotInQueue(s, t, o);
      RemoveAbsent(s.wq[o], t);
    }
    DetachQueue(s, t, o);
    QueueOnlyRest(s, Detach(s, t), o, t);
  }

  lemma DetachQueue(s: State, t: Tid, q: nat)
    requires Shape(s) && t < |s.tcb| && q < |s.wq|
    ensures var s1 := Detach(s, t);
      && s1.tcb == s.tcb && s1.objs == s.objs && s1.inib == s.inib && |s1.wq| == |s.wq|
      && s1.wq[q] == if WaitsOn(s.tcb[t], q) then Remove(s.wq[q], t) else s.wq[q]
  {
    hide Remove;
  }

  lemma QueueOnlyRest(s: State, s1: State, o: nat, t: Tid)
    requires Shape(s) && o < |s.inib| && s1.tcb == s.tcb && s1.objs == s.objs && s1.inib == s.inib && |s1.wq| == |s.wq|
    requires s1.wq[o] == Remove(s.wq[o], t)
    ensures Rest(s, s1, o, Some(t))
  {
    hide Remove;
  }

  lemma {:induction false} WalkRest(s: State, o1: nat, ts: seq<Tid>, o: nat)
    requires Walking(s, o1, ts) && Plain(s, o) && o1 != o
    ensures Rest(s, FlgWalk(s, o1, ts), o, None)
    decreases |ts|
  {
    hide ReadyOk, WaitOk, OrderOk, EvtOk, OwnOk, PriOk, FlgCond, ObjOk, FlgFalse, Wake, Rest;
    if ts != [] {
      var t := ts[0];
      assert t in ts;
      WalkWaiting(s, o1, t);
      if FlgCond(s.objs[o1].ptn, s.tcb[t].waiptn, s.tcb[t].orw) {
        var ptn := s.objs[o1].ptn;
        var s1 := s.(tcb := s.tcb[t := s.tcb[t].(flgptn := ptn)],
                     objs := s.objs[o1 := FlgCb(if s.inib[o1].clr then 0 else ptn)]);
        HitGood(s, o1, t);
        HitRest1(s, s1, o1, t, o);
        WakeRest(s1, t, E_OK, o);
        var s2 := WalkHit(s, o1, ts);
        RestThen(s, s1, s2, o, None);
        if !s.inib[o1].clr {
          WalkRest(s2, o1, ts[1..], o);
          RestThen(s, s2, FlgWalk(s2, o1, ts[1..]), o, None);
        }
      } else {
        WalkMiss(s, o1, ts);
        WalkRest(s, o1, ts[1..], o);
      }
    } else {
      RestSame(s, o);
    }
  }

  lemma HitRest1(s: State, s1: State, o1: nat, t: Tid, o: nat)
    requires Shape(s) && t < |s.tcb| && o < |s.inib| && o1 != o && o1 < |s.inib| && WaitsOn(s.tcb[t], o1)
    requires |s1.tcb| == |s.tcb| && |s1.objs| == |s.objs|
    requires s1 == s.(tcb := s.tcb[t := s.tcb[t].(flgptn := s1.tcb[t].flgptn)], objs := s.objs[o1 := s1.objs[o1]])
    ensures Rest(s, s1, o, None) && !OnIt(s1, s1.tcb[t], o)
  {
  }

  // ---- calls about tasks ------------------------------------------------------------------

  lemma ActRest(s: State, t: Tid, o: nat)
    requires Shape(s) && o < |s.inib|
    ensures Rest(s, ActTsk(s, t).0, o, None)
  {
    hide MakeActive, Rest;
    RestSame(s, o);
    if t < |s.tcb| {
      if !s.tcb[t].tstat.Waiting? {
        ActiveRest(s, t, o);
      }
      FieldRest(s, t, s.tcb[t].(actque := true), o);
    }
  }

  lemma ForbidRest(s: State, t: Tid, texmask: bool, o: nat)
    requires Shape(s) && o < |s.inib|
    ensures Rest(s, DisWai(s, t, texmask).0, o, None) && Rest(s, EnaWai(s, t).0, o, None)
  {
    hide Rest;
    RestSame(s, o);
    if t < |s.tcb| {
      FieldRest(s, t, s.tcb[t].(waifbd := true), o);
      FieldRest(s, t, s.tcb[t].(waifbd := false), o);
    }
  }

  lemma WupRest(s: State, t: Tid, o: nat)
    requires Links(s, {}) && o < |s.inib|
    ensures Rest(s, WupTsk(s, t).0, o, None)
  {
    hide ReadyOk, WaitOk, OrderOk, EvtOk, Wake;
    RestSame(s, o);
    if t < |s.tcb| && s.tcb[t].tstat.Waiting? {
      WakeRest(s, t, E_OK, o);
    }
  }

  lemma RelRest(s: State, t: Tid, o: nat)
    requires Core(s) && o < |s.inib|
    ensures Rest(s, RelWai(s, t).0, o, Some(t)) && Unserved(s, RelWai(s, t).0, o, t)
  {
    hide ReadyOk, WaitOk, OrderOk, EvtOk, OwnOk, PriOk, ObjOk, Wake, Rest;
    if t < |s.tcb| && s.tcb[t].tstat.Waiting? {
      WakeRest(s, t, E_RLWAI, o);
    } else {
      IdleRest(s, t, o);
    }
  }

  /** A task that does not wait is not on the queues of o. */
  lemma IdleRest(s: State, t: Tid, o: nat)
    requires Links(s, {}) && o < |s.inib| && (t < |s.tcb| ==> !s.tcb[t].tstat.Waiting?)
    ensures Rest(s, s, o, Some(t)) && Unserved(s, s, o, t)
  {
    hide ReadyOk, OrderOk, EvtOk;
    RemoveAbsent(s.wq[o], t);
  }

  lemma SusRest(s: State, r: Tid, t: Tid, o: nat)
    requires Shape(s) && o < |s.inib|
    ensures Rest(s, SusTsk(s, r, t).0, o, None)
  {
    hide MakeNonRunnable, Rest;
    RestSame(s, o);
    if t < |s.tcb| {
      var v := s.tcb[t];
      if v.tstat.Runnable? {
        var s1 := s.(tcb := s.tcb[t := v.(tstat := Suspended)]);
        FieldRest(s, t, v.(tstat := Suspended), o);
        LeaveRest(s1, t, o);
        RestThen(s, s1, MakeNonRunnable(s1, t), o, None);
        RestSettle(s, MakeNonRunnable(s1, t), o, None);
      } else if v.tstat.Waiting? {
        FieldRest(s, t, v.(tstat := Waiting(true, v.tstat.on)), o);
      }
    }
  }

  lemma RsmRest(s: State, t: Tid, o: nat)
    requires Shape(s) && o < |s.inib|
    ensures Rest(s, RsmTsk(s, t).0, o, None)
  {
    hide Rest, MakeActive;
    RestSame(s, o);
    if t < |s.tcb| {
      var v := s.tcb[t];
      if v.tstat.Suspended? {
        ActiveRest(s, t, o);
        RestSettle(s, MakeActive(s, t), o, None);
      } else if v.tstat.Waiting? {
        FieldRest(s, t, v.(tstat := Waiting(false, v.tstat.on)), o);
      }
    }
  }

  lemma ActiveRest(s: State, t: Tid, o: nat)
    requires Shape(s) && t < |s.tcb| && o < |s.inib| && !s.tcb[t].tstat.Waiting?
    ensures Rest(s, MakeActive(s, t), o, None)
  {
  }

  lemma LeaveRest(s: State, t: Tid, o: nat)
    requires Shape(s) && t < |s.tcb| && o < |s.inib|
    ensures Rest(s, MakeNonRunnable(s, t), o, None)
  {
  }

  /** A change of one task that keeps what it waits for and offers. */
  lemma FieldRest(s: State, t: Tid, v: Tcb, o: nat)
    requires Shape(s) && t < |s.tcb| && o < |s.inib|
    requires OnIt(s, s.tcb[t], o) ==> v.tstat.Waiting? && v.tstat.on == s.tcb[t].tstat.on && v.item == s.tcb[t].item
    ensures Rest(s, s.(tcb := s.tcb[t := v]), o, None)
  {
  }

  lemma ExtRest(s: State, r: Tid, o: nat)
    requires Inv(s) && s.run == Some(r) && Plain(s, o)
    ensures Rest(s, ExtTsk(s, r).0, o, None)
  {
    hide ReadyOk, WaitOk, OrderOk, EvtOk, ObjOk, OwnOk, PriOk, Finish, Rest;
    var s1 := s.(disdsp := false, ipmflg := true, dspflg := true);
    FewerWaiters(s, s1);
    FlagsMtx(s, s1);
    DetachGood(s1, r);
    assert Detach(s1, r) == MakeNonRunnable(s1, r);
    var s2 := MakeNonRunnable(s1, r);
    LeaveRest(s1, r, o);
    FinishRest(s2, r, o);
    OutOfQueue(s2, r, o);
    NotOnIt(s2, Finish(s2, r), o, r);
    FlagOnlyRest(s, s1, o);
    RestThen(s, s1, s2, o, None);
    RestThen(s, s2, Finish(s2, r), o, None);
    RestSettle(s, Finish(s2, r), o, None);
  }

  lemma FlagOnlyRest(s: State, s1: State, o: nat)
    requires Shape(s) && o < |s.inib| && s1.tcb == s.tcb && s1.wq == s.wq && s1.inib == s.inib && s1.objs == s.objs
    ensures Rest(s, s1, o, None)
  {
  }

  lemma TerRest(s: State, r: Tid, t: Tid, o: nat)
    requires Inv(s) && s.run == Some(r) && Plain(s, o)
    ensures Rest(s, TerTsk(s, r, t).0, o, Some(t)) && Unserved(s, TerTsk(s, r, t).0, o, t)
  {
    hide ReadyOk, WaitOk, OrderOk, EvtOk, ObjOk, OwnOk, PriOk, Finish, Detach, Rest;
    if t < |s.tcb| && t != r && s.tcb[t].exs && !s.tcb[t].tstat.Dormant? {
      DetachGood(s, t);
      DetachRest(s, t, o);
      var s1 := Detach(s, t);
      FinishRest(s1, t, o);
      OutOfQueue(s1, t, o);
      LeftThen(s, s1, Finish(s1, t), o, t);
      RestSettle(s, Finish(s1, t), o, Some(t));
    } else {
      IdleRest(s, t, o);
    }
  }

  lemma SleepRest(s: State, r: Tid, tmo: Tmo, o: nat)
    requires Shape(s) && r < |s.tcb| && s.tcb[r].tstat.Runnable? && o < |s.inib|
    ensures Rest(s, SlpTsk(s, r, tmo).0, o, None) && Rest(s, DlyTsk(s, r).0, o, None)
  {
    hide MakeWait, Rest;
    RestSame(s, o);
    FieldRest(s, r, s.tcb[r].(wupque := false), o);
    WaitRest(s, r, Slp, tmo == After, o);
    RestSettle(s, MakeWait(s, r, Slp, tmo == After), o, None);
    WaitRest(s, r, Dly, true, o);
    RestSettle(s, MakeWait(s, r, Dly, true), o, None);
  }

  lemma FlagsRest(s: State, enaall: bool, o: nat)
    requires Shape(s) && o < |s.inib|
    ensures Rest(s, DisDsp(s), o, None) && Rest(s, EnaDsp(s), o, None) && Rest(s, ChgIpm(s, enaall), o, None)
  {
    hide Rest;
    FlagOnlyRest(s, DisDsp(s), o);
    FlagOnlyRest(s, EnaDsp(s), o);
    FlagOnlyRest(s, ChgIpm(s, enaall), o);
  }

  lemma RotateRest(s: State, p: Pri, o: nat)
    requires Shape(s) && o < |s.inib|
    ensures Rest(s, RotateReadyQueue(s, p), o, None)
  {
  }

  lemma ChgPriRest(s: State, r: Tid, t: Tid, p: Option<Pri>, o: nat)
    requires Shape(s) && r < |s.tcb| && o < |s.inib|
    ensures Rest(s, ChgPri(s, r, t, p).0, o, None)
  {
    hide ChangePriority, Rest;
    RestSame(s, o);
    if t < |s.tcb| {
      var newb := if p.None? then s.tcb[t].ini.ipri else p.value;
      var s1 := s.(tcb := s.tcb[t := s.tcb[t].(bpri := newb)]);
      FieldRest(s, t, s.tcb[t].(bpri := newb), o);
      ChangeRest(s1, t, newb, false, o);
      RestThen(s, s1, ChangePriority(s1, t, newb, false), o, None);
      RestSettle(s, ChangePriority(s1, t, newb, false), o, None);
    }
  }

  lemma CreateRest(s: State, ipri: Pri, act: bool, o: nat)
    requires Core(s) && o < |s.inib|
    ensures Rest(s, AcreTsk(s, ipri, act).0, o, None)
  {
    hide ReadyOk, WaitOk, OrderOk, EvtOk, ObjOk, OwnOk, PriOk, AcreTsk, MakeActive, Rest;
    if s.freeTcb != [] {
      assert s.freeTcb[0] in s.freeTcb;
      AcreForm(s, ipri);
      var s1 := AcreTsk(s, ipri, false).0;
      FreshRest(s, s1, s.freeTcb[0], o);
      ActiveRest(s1, s.freeTcb[0], o);
      RestThen(s, s1, MakeActive(s1, s.freeTcb[0]), o, None);
    } else {
      NoneToCreate(s, ipri, act);
      RestSame(s, o);
    }
  }

  lemma NoneToCreate(s: State, ipri: Pri, act: bool)
    requires Shape(s) && s.freeTcb == []
    ensures AcreTsk(s, ipri, act).0 == s
  {
  }

  lemma FreshRest(s: State, s1: State, t: Tid, o: nat)
    requires Shape(s) && o < |s.inib| && t < |s.tcb| && s.tcb[t].tstat.Dormant? && |s1.tcb| == |s.tcb|
    requires s1 == s.(freeTcb := s1.freeTcb, tcb := s1.tcb)
    requires forall u :: 0 <= u < |s.tcb| && u != t ==> s1.tcb[u] == s.tcb[u]
    ensures Rest(s, s1, o, None)
  {
  }

  lemma DelRest(s: State, t: Tid, o: nat)
    requires Shape(s) && o < |s.inib|
    ensures Rest(s, DelTsk(s, t).0, o, None)
  {
    hide Rest;
    RestSame(s, o);
    if t < |s.tcb| {
      var s1 := s.(tcb := s.tcb[t := s.tcb[t].(exs := false)]);
      FieldRest(s, t, s.tcb[t].(exs := false), o);
      FlagOnlyRest(s1, s1.(freeTcb := s.freeTcb + [t]), o);
      RestThen(s, s1, s1.(freeTcb := s.freeTcb + [t]), o, None);
    }
  }

  /** The task a call takes off whatever it waits for. */
  function Leaver(s: State, op: Op): Option<Tid> {
    match op
    case Manage(m) => if m.OpTerTsk? || m.OpRelWai? then Some(m.t) else None
    case Int(i) => if i.OpIRelWai? || (i.OpTimeout? && i.t in s.evts) then Some(i.t) else None
    case Sync(_) => None
    case Data(_) => None
    case IntEnter => None
  }

  /** The call leaves o alone, and whom it takes off o does not get what it waited for. */
  ghost predicate LeftAlone(s: State, s1: State, o: nat, x: Option<Tid>) {
    Rest(s, s1, o, x) && (x.Some? ==> Unserved(s, s1, o, x.value))
  }

  lemma ManageRest(s: State, r: Tid, op: ManageOp, o: nat)
    requires Inv(s) && s.run == Some(r) && Plain(s, o)
    ensures LeftAlone(s, ManageStep(s, r, op).0, o, Leaver(s, Manage(op)))
  {
    hide ReadyOk, WaitOk, OrderOk, EvtOk, ObjOk, OwnOk, PriOk, ActTsk, ExtTsk, TerTsk, ChgPri, AcreTsk,
         DelTsk, WupTsk, RelWai, SusTsk, RsmTsk, Rest, Unserved, RotateReadyQueue;
    match op
    case OpActTsk(t) => ActRest(s, t, o); RestSettle(s, ActTsk(s, t).0, o, None);
    case OpExtTsk => ExtRest(s, r, o);
    case OpTerTsk(t) => TerRest(s, r, t, o);
    case OpChgPri(t, p) => ChgPriRest(s, r, t, p, o);
    case OpAcreTsk(p, act) => CreateRest(s, p, act, o);
    case OpDelTsk(t) => DelRest(s, t, o);
    case OpSlpTsk(tmo) => SleepRest(s, r, tmo, o);
    case OpDlyTsk => SleepRest(s, r, After, o);
    case OpWupTsk(t) => WupRest(s, t, o); RestSettle(s, WupTsk(s, t).0, o, None);
    case OpRelWai(t) => RelRest(s, t, o); RestSettle(s, RelWai(s, t).0, o, Some(t)); UnservedSettle(s, RelWai(s, t).0, o, t);
    case OpSusTsk(t) => SusRest(s, r, t, o);
    case OpRsmTsk(t) => RsmRest(s, t, o);
    case OpDisWai(t, texmask) => ForbidRest(s, t, texmask, o);
    case OpEnaWai(t) => ForbidRest(s, t, false, o);
    case OpDisDsp => FlagsRest(s, false, o);
    case OpEnaDsp => FlagsRest(s, false, o);
    case OpChgIpm(enaall) => FlagsRest(s, enaall, o);
    case OpRotRdq(p) =>
      var pri := if p.None? then s.tcb[r].bpri else p.value;
      RotateRest(s, pri, o);
      RestSettle(s, RotateReadyQueue(s, pri), o, None);
  }

  lemma UnservedSettle(s: State, s1: State, o: nat, t: Tid)
    requires Unserved(s, s1, o, t)
    ensures Unserved(s, Settle(s1), o, t)
  {
  }

  // ---- calls about other objects ------------------------------------------------------------

  lemma LockRest(s: State, r: Tid, m: nat, tmo: Tmo, o: nat)
    requires Inv(s) && s.run == Some(r) && Plain(s, o)
    ensures Rest(s, LocMtx(s, r, m, tmo).0, o, None)
  {
    hide ReadyOk, WaitOk, OrderOk, EvtOk, ObjOk, OwnOk, PriOk, MutexAcquire, MakeWait, WobjMakeWait, Settle, Rest;
    RestSame(s, o);
    if IsMtx(s, m) {
      AcquireRest(s, r, m, o);
      WaitRest(s, r, Wobj(m), tmo == After, o);
      RestSettle(s, WobjMakeWait(s, r, m, tmo == After), o, None);
    }
  }

  lemma UnlockRest(s: State, r: Tid, m: nat, o: nat)
    requires Inv(s) && s.run == Some(r) && Plain(s, o)
    ensures Rest(s, UnlMtx(s, r, m).0, o, None)
  {
    hide ReadyOk, WaitOk, OrderOk, EvtOk, ObjOk, OwnOk, PriOk, MutexRelease, Unhold, Settle, Rest;
    RestSame(s, o);
    if IsMtx(s, m) && s.objs[m].loctsk == Some(r) {
      var s1 := Unhold(s, r, m);
      UnholdGood(s, r, m);
      UnholdRest(s, r, m, o);
      ReleaseRest(s1, m, {}, o);
      RestThen(s, s1, MutexRelease(s1, m), o, None);
      RestSettle(s, MutexRelease(s1, m), o, None);
    }
  }

  lemma IniMutexRest(s: State, m: nat, o: nat)
    requires Inv(s) && Plain(s, o)
    ensures Rest(s, IniMtx(s, m).0, o, None)
  {
    hide ReadyOk, WaitOk, OrderOk, EvtOk, ObjOk, OwnOk, PriOk, WakeAll, Unhold, Settle, Rest;
    RestSame(s, o);
    if IsMtx(s, m) {
      var s1 := WakeAll(s, s.wq[m]);
      QueueRest(s, m, o);
      StripRest(s1, m, o);
      RestThen(s, s1, Strip(s1, m), o, None);
      RestSettle(s, Strip(s1, m), o, None);
    }
  }

  lemma StripRest(s: State, m: nat, o: nat)
    requires Shape(s) && IsMtx(s, m) && Plain(s, o)
    ensures Rest(s, Strip(s, m), o, None)
  {
    hide Unhold, Rest;
    RestSame(s, o);
    if s.objs[m].loctsk.Some? && s.objs[m].loctsk.value < |s.tcb| {
      var s1 := Unhold(s, s.objs[m].loctsk.value, m);
      UnholdRest(s, s.objs[m].loctsk.value, m, o);
      OtherObjRest(s1, m, MtxCb(None), o);
      RestThen(s, s1, SetOwner(s1, m, None), o, None);
    }
  }

  lemma OtherObjRest(s: State, o1: nat, cb: Cb, o: nat)
    requires Shape(s) && o < |s.inib| && o1 < |s.inib| && o1 != o
    ensures Rest(s, s.(objs := s.objs[o1 := cb]), o, None)
  {
  }

  lemma SignalRest(s: State, o1: nat, o: nat)
    requires Links(s, {}) && o < |s.inib| && o1 != o
    ensures Rest(s, SigSem(s, o1).0, o, None)
  {
    hide ReadyOk, WaitOk, OrderOk, EvtOk, WakeHead, Rest;
    RestSame(s, o);
    if IsSem(s, o1) {
      OtherObjRest(s, o1, SemCb(s.objs[o1].semcnt + 1), o);
      if s.wq[o1] != [] {
        WakeHeadRest(s, o1, o);
      }
    }
  }

  lemma WaiSemRest(s: State, r: Tid, o1: nat, tmo: Tmo, o: nat)
    requires Shape(s) && r < |s.tcb| && s.tcb[r].tstat.Runnable? && o < |s.inib| && o1 != o
    ensures Rest(s, WaiSem(s, r, o1, tmo).0, o, None)
  {
    hide MakeWait, WobjMakeWait, Settle, Rest;
    RestSame(s, o);
    if IsSem(s, o1) {
      if s.objs[o1].semcnt >= 1 {
        OtherObjRest(s, o1, SemCb(s.objs[o1].semcnt - 1), o);
      }
      WaitRest(s, r, Wobj(o1), tmo == After, o);
      RestSettle(s, WobjMakeWait(s, r, o1, tmo == After), o, None);
    }
  }

  /** The initialization of an object that is not a mutex. */
  lemma IniRest(s: State, o1: nat, cb: Cb, o: nat)
    requires Core(s) && o < |s.inib| && o1 < |s.inib| && o1 != o
    ensures var s1 := WakeAll(s, s.wq[o1]);
      && Shape(s1) && s1.inib == s.inib
      && Rest(s, Settle(s1.(objs := s1.objs[o1 := cb])), o, None)
  {
    hide ReadyOk, WaitOk, OrderOk, EvtOk, ObjOk, OwnOk, PriOk, WakeAll, Settle, Rest;
    var s1 := WakeAll(s, s.wq[o1]);
    QueueRest(s, o1, o);
    OtherObjRest(s1, o1, cb, o);
    RestThen(s, s1, s1.(objs := s1.objs[o1 := cb]), o, None);
    RestSettle(s, s1.(objs := s1.objs[o1 := cb]), o, None);
  }

  lemma SetFlagRest(s: State, o1: nat, ptn: bv32, o: nat)
    requires Core(s) && Plain(s, o) && o1 != o
    ensures Rest(s, SetFlg(s, o1, ptn).0, o, None)
  {
    hide ReadyOk, WaitOk, OrderOk, EvtOk, ObjOk, OwnOk, PriOk, FlgWalk, FlgCond, SetBits, Rest;
    RestSame(s, o);
    if IsFlg(s, o1) {
      var s0 := s.(objs := s.objs[o1 := FlgCb(SetBits(s.objs[o1].ptn, ptn))]);
      SetFlgStart(s, o1, ptn);
      OtherObjRest(s, o1, s0.objs[o1], o);
      WalkRest(s0, o1, s0.wq[o1], o);
      RestThen(s, s0, FlgWalk(s0, o1, s0.wq[o1]), o, None);
    }
  }

  lemma ClearFlagRest(s: State, o1: nat, ptn: bv32, o: nat)
    requires Shape(s) && o < |s.inib| && o1 != o
    ensures Rest(s, ClrFlg(s, o1, ptn).0, o, None)
  {
    hide ClearBits, Rest;
    RestSame(s, o);
    if IsFlg(s, o1) {
      OtherObjRest(s, o1, FlgCb(ClearBits(s.objs[o1].ptn, ptn)), o);
    }
  }

  lemma TakeRest(s: State, r: Tid, o1: nat, o: nat)
    requires Shape(s) && r < |s.tcb| && s.tcb[r].tstat.Runnable? && o < |s.inib| && o1 != o && IsFlg(s, o1)
    ensures Rest(s, TakePattern(s, r, o1), o, None)
  {
    hide Rest;
    var v := s.tcb[r].(flgptn := s.objs[o1].ptn);
    var s1 := s.(tcb := s.tcb[r := v]);
    FieldRest(s, r, v, o);
    OtherObjRest(s1, o1, FlgCb(if s.inib[o1].clr then 0 else s.objs[o1].ptn), o);
    RestThen(s, s1, TakePattern(s, r, o1), o, None);
  }

  lemma WaitFlagRest(s: State, r: Tid, o1: nat, ptn: bv32, orw: bool, tmo: Tmo, o: nat)
    requires Shape(s) && r < |s.tcb| && s.tcb[r].tstat.Runnable? && o < |s.inib| && o1 != o
    ensures Rest(s, WaiFlg(s, r, o1, ptn, orw, tmo).0, o, None)
  {
    hide MakeWait, WobjMakeWait, Settle, FlgCond, Rest;
    RestSame(s, o);
    if IsFlg(s, o1) {
      TakeRest(s, r, o1, o);
      var s1 := s.(tcb := s.tcb[r := s.tcb[r].(waiptn := ptn, orw := orw)]);
      FieldRest(s, r, s1.tcb[r], o);
      WaitRest(s1, r, Wobj(o1), tmo == After, o);
      RestThen(s, s1, WobjMakeWait(s1, r, o1, tmo == After), o, None);
      RestSettle(s, WobjMakeWait(s1, r, o1, tmo == After), o, None);
    }
  }

  /** The object the call names. */
  function Named(op: Op): Option<nat> {
    match op
    case Sync(y) => Some(y.o)
    case Data(d) => Some(d.o)
    case Int(i) => if i.OpISigSem? || i.OpISetFlg? || i.OpIpsndDtq? || i.OpIfsndDtq? then Some(i.o) else None
    case Manage(_) => None
    case IntEnter => None
  }

  lemma SyncRest(s: State, r: Tid, op: SyncOp, o: nat)
    requires Inv(s) && s.run == Some(r) && Plain(s, o) && op.o != o
    ensures Rest(s, SyncStep(s, r, op).0, o, None)
  {
    hide ReadyOk, WaitOk, OrderOk, EvtOk, ObjOk, OwnOk, PriOk, LocMtx, UnlMtx, IniMtx, SigSem, WaiSem,
         SetFlg, ClrFlg, WaiFlg, WakeAll, Settle, Rest;
    RestSame(s, o);
    match op
    case OpLocMtx(o1, tmo) => LockRest(s, r, o1, tmo, o);
    case OpPlocMtx(o1) => LockRest(s, r, o1, Pol, o);
    case OpUnlMtx(o1) => UnlockRest(s, r, o1, o);
    case OpIniMtx(o1) => IniMutexRest(s, o1, o);
    case OpSigSem(o1) => SignalRest(s, o1, o); RestSettle(s, SigSem(s, o1).0, o, None);
    case OpWaiSem(o1, tmo) => WaiSemRest(s, r, o1, tmo, o);
    case OpPolSem(o1) => WaiSemRest(s, r, o1, Pol, o);
    case OpIniSem(o1) => if IsSem(s, o1) { IniRest(s, o1, SemCb(s.inib[o1].isemcnt), o); }
    case OpSetFlg(o1, ptn) => SetFlagRest(s, o1, ptn, o); RestSettle(s, SetFlg(s, o1, ptn).0, o, None);
    case OpClrFlg(o1, ptn) => ClearFlagRest(s, o1, ptn, o);
    case OpWaiFlg(o1, w, orw, tmo) => WaitFlagRest(s, r, o1, w, orw, tmo, o);
    case OpPolFlg(o1, w, orw) => WaitFlagRest(s, r, o1, w, orw, Pol, o);
    case OpIniFlg(o1) => if IsFlg(s, o1) { IniRest(s, o1, FlgCb(s.inib[o1].iflgptn), o); }
  }

  lemma GiveRest(s: State, q: nat, it: Item, o: nat)
    requires Core(s) && q < |s.wq| && s.wq[q] != [] && o < |s.inib| && q != o && q != RcvQ(s, o)
    ensures s.wq[q][0] < |s.tcb| && Shape(SetItem(s, s.wq[q][0], it))
    ensures Rest(s, WakeHead(SetItem(s, s.wq[q][0], it), q), o, None)
  {
    hide ReadyOk, WaitOk, OrderOk, EvtOk, ObjOk, OwnOk, PriOk, WakeHead, Rest;
    HeadWaits(s, q);
    var t := s.wq[q][0];
    var s1 := SetItem(s, t, it);
    ItemCore(s, t, it);
    FieldRest(s, t, s.tcb[t].(item := it), o);
    WakeHeadRest(s1, q, o);
    RestThen(s, s1, WakeHead(s1, q), o, None);
  }

  lemma SendRest(s: State, o1: nat, it: Item, o: nat)
    requires Core(s) && o < |s.inib| && o1 != o
    ensures IsDtq(s, o1) && SendData(s, o1, it).Some? ==> Rest(s, SendData(s, o1, it).value, o, None)
    ensures Rest(s, FsndDtq(s, o1, it).0, o, None)
  {
    hide ReadyOk, WaitOk, OrderOk, EvtOk, ObjOk, OwnOk, PriOk, WakeHead, AddItem, ForceItem, Rest;
    RestSame(s, o);
    if IsDtq(s, o1) {
      OtherObjRest(s, o1, DtqCb(AddItem(s.inib[o1].prio, s.objs[o1].items, it)), o);
      OtherObjRest(s, o1, DtqCb(ForceItem(s.objs[o1].items, s.inib[o1].dtqcnt, it)), o);
      if s.wq[RcvQ(s, o1)] != [] {
        GiveRest(s, RcvQ(s, o1), it, o);
      }
    }
  }

  lemma ReceiveRest(s: State, o1: nat, o: nat)
    requires Core(s) && o < |s.inib| && o1 != o
    ensures IsDtq(s, o1) && ReceiveData(s, o1).Some? ==>
      Rest(s, ReceiveData(s, o1).value.0, o, None) && Keeps(s, ReceiveData(s, o1).value.0)
  {
    hide ReadyOk, WaitOk, OrderOk, EvtOk, ObjOk, OwnOk, PriOk, WakeHead, AddItem, Rest;
    if IsDtq(s, o1) {
      var items := s.objs[o1].items;
      if items != [] {
        OtherObjRest(s, o1, DtqCb(items[1..]), o);
      }
      if s.wq[o1] != [] {
        HeadWaits(s, o1);
        WakeHeadRest(s, o1, o);
        if items != [] {
          var cb := DtqCb(AddItem(s.inib[o1].prio, items[1..], s.tcb[s.wq[o1][0]].item));
          var s1 := s.(objs := s.objs[o1 := cb]);
          OtherObjRest(s, o1, cb, o);
          WakeHeadRest(s1, o1, o);
          RestThen(s, s1, WakeHead(s1, o1), o, None);
        }
      }
    }
  }

  lemma SndRest(s: State, r: Tid, o1: nat, it: Item, tmo: Tmo, o: nat)
    requires Core(s) && r < |s.tcb| && s.tcb[r].tstat.Runnable? && o < |s.inib| && o1 != o
    ensures Rest(s, SndDtq(s, r, o1, it, tmo).0, o, None)
  {
    hide ReadyOk, WaitOk, OrderOk, EvtOk, ObjOk, OwnOk, PriOk, SendData, WobjMakeWait, Settle, Rest;
    RestSame(s, o);
    if IsDtq(s, o1) {
      if SendData(s, o1, it).Some? {
        SendRest(s, o1, it, o);
        RestSettle(s, SendData(s, o1, it).value, o, None);
      } else {
        OfferRest(s, r, o1, it, tmo == After, o);
      }
    }
  }

  lemma OfferRest(s: State, r: Tid, o1: nat, it: Item, timed: bool, o: nat)
    requires Shape(s) && r < |s.tcb| && s.tcb[r].tstat.Runnable? && o < |s.inib| && o1 < |s.inib| && o1 != o
    ensures Rest(s, Settle(WobjMakeWait(SetItem(s, r, it), r, o1, timed)), o, None)
  {
    hide WobjMakeWait, Settle, Rest;
    var s1 := SetItem(s, r, it);
    FieldRest(s, r, s.tcb[r].(item := it), o);
    WaitRest(s1, r, Wobj(o1), timed, o);
    RestThen(s, s1, WobjMakeWait(s1, r, o1, timed), o, None);
    RestSettle(s, WobjMakeWait(s1, r, o1, timed), o, None);
  }

  lemma RcvRest(s: State, r: Tid, o1: nat, tmo: Tmo, o: nat)
    requires Core(s) && r < |s.tcb| && s.tcb[r].tstat.Runnable? && o < |s.inib| && o1 != o
    ensures Rest(s, RcvDtq(s, r, o1, tmo).0, o, None)
  {
    hide ReadyOk, WaitOk, OrderOk, EvtOk, ObjOk, OwnOk, PriOk, ReceiveData, MakeWait, WobjMakeWait, Settle, Rest;
    RestSame(s, o);
    if IsDtq(s, o1) {
      ReceiveRest(s, o1, o);
      if ReceiveData(s, o1).Some? {
        var s1, it := ReceiveData(s, o1).value.0, ReceiveData(s, o1).value.1;
        GotRest(s, s1, r, it, o);
        RestSettle(s, SetItem(s1, r, it), o, None);
      }
      WaitRest(s, r, Wobj(RcvQ(s, o1)), tmo == After, o);
      RestSettle(s, WobjMakeWait(s, r, RcvQ(s, o1), tmo == After), o, None);
    }
  }

  /** The data a running task gets is recorded with it. */
  lemma GotRest(s: State, s1: State, r: Tid, it: Item, o: nat)
    requires Rest(s, s1, o, None) && r < |s.tcb| && s.tcb[r].tstat.Runnable?
    ensures Rest(s, SetItem(s1, r, it), o, None)
  {
  }

  lemma IniDataRest(s: State, o1: nat, o: nat)
    requires Core(s) && o < |s.inib| && o1 != o
    ensures Rest(s, IniDtq(s, o1).0, o, None)
  {
    hide ReadyOk, WaitOk, OrderOk, EvtOk, ObjOk, OwnOk, PriOk, WakeAll, Settle, Rest;
    RestSame(s, o);
    if IsDtq(s, o1) {
      var s1 := WakeAll(s, s.wq[o1]);
      WakeAllCore(s, o1);
      QueueRest(s, o1, o);
      QueueRest(s1, RcvQ(s1, o1), o);
      var s2 := WakeAll(s1, s1.wq[RcvQ(s1, o1)]);
      RestThen(s, s1, s2, o, None);
      OtherObjRest(s2, o1, DtqCb([]), o);
      RestThen(s, s2, SetItems(s2, o1, []), o, None);
      RestSettle(s, SetItems(s2, o1, []), o, None);
    }
  }

  lemma GetRest(s: State, r: Tid, o1: nat, tmo: Tmo, o: nat)
    requires Shape(s) && r < |s.tcb| && s.tcb[r].tstat.Runnable? && o < |s.inib| && o1 != o
    ensures Rest(s, GetMpf(s, r, o1, tmo).0, o, None)
  {
    hide MakeWait, WobjMakeWait, Settle, GetBlock, NextBlock, Rest;
    RestSame(s, o);
    if IsMpf(s, o1) {
      var p := s.objs[o1].pool;
      WaitRest(s, r, Wobj(o1), tmo == After, o);
      RestSettle(s, WobjMakeWait(s, r, o1, tmo == After), o, None);
      if p.fblkcnt > 0 {
        OtherObjRest(s, o1, MpfCb(GetBlock(p)), o);
        GotRest(s, s.(objs := s.objs[o1 := MpfCb(GetBlock(p))]), r, Item(NextBlock(p), 0), o);
      }
    }
  }

  lemma RelBlockRest(s: State, o1: nat, b: nat, o: nat)
    requires Core(s) && o < |s.inib| && o1 != o
    ensures Rest(s, RelMpf(s, o1, b).0, o, None)
  {
    hide ReadyOk, WaitOk, OrderOk, EvtOk, ObjOk, OwnOk, PriOk, WakeHead, Settle, RelBlock, Rest;
    RestSame(s, o);
    if IsMpf(s, o1) {
      OtherObjRest(s, o1, MpfCb(RelBlock(s.objs[o1].pool, b)), o);
      if s.wq[o1] != [] {
        GiveRest(s, o1, Item(b, 0), o);
        RestSettle(s, WakeHead(SetItem(s, s.wq[o1][0], Item(b, 0)), o1), o, None);
      }
    }
  }

  lemma DataRest(s: State, r: Tid, op: DataOp, o: nat)
    requires Inv(s) && s.run == Some(r) && Plain(s, o) && op.o != o
    ensures Rest(s, DataStep(s, r, op).0, o, None)
  {
    hide ReadyOk, WaitOk, OrderOk, EvtOk, ObjOk, OwnOk, PriOk, SndDtq, FsndDtq, RcvDtq, IniDtq, GetMpf,
         RelMpf, WakeAll, Settle, Rest;
    RestSame(s, o);
    match op
    case OpSndDtq(o1, it, tmo) => SndRest(s, r, o1, it, tmo, o);
    case OpPsndDtq(o1, it) => SndRest(s, r, o1, it, Pol, o);
    case OpFsndDtq(o1, it) => SendRest(s, o1, it, o); RestSettle(s, FsndDtq(s, o1, it).0, o, None);
    case OpRcvDtq(o1, tmo) => RcvRest(s, r, o1, tmo, o);
    case OpPrcvDtq(o1) => RcvRest(s, r, o1, Pol, o);
    case OpIniDtq(o1) => IniDataRest(s, o1, o);
    case OpGetMpf(o1, tmo) => GetRest(s, r, o1, tmo, o);
    case OpPgetMpf(o1) => GetRest(s, r, o1, Pol, o);
    case OpRelMpf(o1, b) => RelBlockRest(s, o1, b, o);
    case OpIniMpf(o1) => if IsMpf(s, o1) { IniRest(s, o1, MpfCb(NewPool(s.inib[o1].blkcnt)), o); }
  }

  // ---- interrupt handlers, and any step -------------------------------------------------------

  lemma TimeoutRest(s: State, t: Tid, o: nat)
    requires Core(s) && o < |s.inib|
    ensures LeftAlone(s, IntStep(s, OpTimeout(t)).0, o, Leaver(s, Int(OpTimeout(t))))
  {
    hide ReadyOk, WaitOk, OrderOk, OwnOk, PriOk, ObjOk, Wake, Rest;
    RestSame(s, o);
    if t in s.evts {
      DueRest(s, t, if s.tcb[t].tstat.on == Dly then E_OK else E_TMOUT, o);
    }
  }

  lemma DueRest(s: State, t: Tid, er: Er, o: nat)
    requires Links(s, {}) && o < |s.inib| && t < |s.tcb| && s.tcb[t].tstat.Waiting?
    requires er == E_OK ==> s.tcb[t].tstat.on == Dly
    ensures LeftAlone(s, Wake(s, t, er), o, Some(t))
  {
    hide ReadyOk, WaitOk, OrderOk, EvtOk, Wake, Rest;
    WakeRest(s, t, er, o);
  }

  lemma IntRest(s: State, op: IntOp, o: nat)
    requires Core(s) && Plain(s, o) && Named(Int(op)) != Some(o)
    ensures LeftAlone(s, IntStep(s, op).0, o, Leaver(s, Int(op)))
  {
    hide ReadyOk, WaitOk, OrderOk, EvtOk, ObjOk, OwnOk, PriOk, ActTsk, WupTsk, RelWai, RotateReadyQueue,
         SigSem, SetFlg, FsndDtq, SendData, Settle, Rest, Unserved;
    RestSame(s, o);
    match op
    case OpIntExit =>
      FlagOnlyRest(s, s.(intctx := false), o);
      RestSettle(s, s.(intctx := false), o, None);
    case OpIActTsk(t) => ActRest(s, t, o);
    case OpIWupTsk(t) => WupRest(s, t, o);
    case OpIRelWai(t) => RelRest(s, t, o);
    case OpIRotRdq(p) => RotateRest(s, p, o);
    case OpISigSem(o1) => SignalRest(s, o1, o);
    case OpISetFlg(o1, ptn) => SetFlagRest(s, o1, ptn, o);
    case OpIpsndDtq(o1, it) => SendRest(s, o1, it, o);
    case OpIfsndDtq(o1, it) => SendRest(s, o1, it, o);
    case OpTimeout(t) => TimeoutRest(s, t, o);
  }

  /** A call that is refused for its context takes no one off anything. */
  function LeaverIn(s: State, op: Op): Option<Tid> {
    if op.Int? != s.intctx || (!op.Int? && (s.run.None? || s.run.value >= |s.tcb|)) then None else Leaver(s, op)
  }

  /** Any step that does not name o leaves it alone. */
  lemma StepRest(s: State, op: Op, o: nat)
    requires Inv(s) && Plain(s, o) && Named(op) != Some(o)
    ensures LeftAlone(s, Step(s, op).0, o, LeaverIn(s, op))
  {
    hide ReadyOk, WaitOk, OrderOk, EvtOk, ObjOk, OwnOk, PriOk, IntStep, ManageStep, SyncStep, DataStep, Rest, Unserved;
    RestSame(s, o);
    FlagOnlyRest(s, s.(intctx := true), o);
    if op.Int? && s.intctx {
      IntRest(s, op.i, o);
    } else if !op.IntEnter? && !op.Int? && !s.intctx && s.run.Some? && s.run.value < |s.tcb| {
      match op
      case Manage(m) => ManageRest(s, s.run.value, m, o);
      case Sync(y) => SyncRest(s, s.run.value, y, o);
      case Data(d) => DataRest(s, s.run.value, d, o);
    }
  }

  /** The call is for objects of the kind of o. */
  predicate ForKind(op: Op, i: Inib) {
    match op
    case Sync(y) =>
      if y.OpLocMtx? || y.OpPlocMtx? || y.OpUnlMtx? || y.OpIniMtx? then i.MtxInib?
      else if y.OpSigSem? || y.OpWaiSem? || y.OpPolSem? || y.OpIniSem? then i.SemInib?
      else i.FlgInib?
    case Data(d) =>
      if d.OpGetMpf? || d.OpPgetMpf? || d.OpRelMpf? || d.OpIniMpf? then i.MpfInib?
      else i.DtqInib? && (d.OpFsndDtq? ==> !i.prio)
    case Int(i1) =>
      if i1.OpISigSem? then i.SemInib? else if i1.OpISetFlg? then i.FlgInib?
      else i.DtqInib? && (i1.OpIfsndDtq? ==> !i.prio)
    case Manage(_) => false
    case IntEnter => false
  }

  /** A call that names an object of another kind changes nothing. */
  lemma WrongKind(s: State, op: Op, o: nat)
    requires Inv(s) && o < |s.inib| && Named(op) == Some(o) && !ForKind(op, s.inib[o])
    ensures Step(s, op).0 == s && Step(s, op).1 in {E_ID, E_CTX}
  {
    hide ReadyOk, WaitOk, OrderOk, EvtOk, ObjOk, OwnOk, PriOk, MutexAcquire, MutexRelease, Unhold, WakeAll, WakeHead,
         FlgWalk, FlgCond, MakeWait, WobjMakeWait, SendData, ReceiveData, ForceSendData, GetBlock, RelBlock;
    if !s.intctx {
      SettledInv(s);
    }
  }
}
