/** Every service call and every interrupt-side call keeps the kernel invariant. */
module KernelSteps {
  import opened Lists
  import opened KernelSpec
  import opened KernelInv
  import opened KernelKeeps
  import opened KernelMutex

  // ---- closing a call ------------------------------------------------------------

  lemma TopRunnable(tcb: seq<Tcb>, ready: seq<seq<Tid>>, ex: set<Tid>)
    requires ReadyOk(tcb, ready, ex)
    ensures Top(ready).Some? ==> Top(ready).value < |tcb| && tcb[Top(ready).value].tstat.Runnable?
  {
    if Top(ready).Some? {
      var p := TopFromInv(ready, 0);
      assert ready[p][0] in ready[p];
    }
  }

  /** The running task is unaffected: flags stay and it stays runnable. */
  ghost predicate Calm(s: State, s1: State) {
    && |s1.tcb| == |s.tcb|
    && s1.run == s.run && s1.intctx == s.intctx && s1.dspflg == s.dspflg
    && (s.run.Some? && s.run.value < |s.tcb| && s.tcb[s.run.value].tstat.Runnable?
        ==> s1.tcb[s.run.value].tstat.Runnable?)
  }

  lemma SettleInv(s: State)
    requires Core(s)
    requires s.dspflg || (s.run.Some? ==> s.run.value < |s.tcb| && s.tcb[s.run.value].tstat.Runnable?)
    ensures Inv(Settle(s))
  {
    hide ReadyOk, WaitOk, OrderOk, EvtOk, OwnOk, PriOk, ObjOk;
    TopRunnable(s.tcb, s.ready, {});
    var s1 := Settle(s);
    FewerWaiters(s, s1);
    FlagsMtx(s, s1);
  }

  lemma CalmInv(s: State, s1: State)
    requires Inv(s) && Core(s1) && Calm(s, s1)
    ensures Inv(Settle(s1))
    ensures s.intctx || s1.ready == s.ready ==> Inv(s1)
  {
    hide ReadyOk, WaitOk, OrderOk, EvtOk, ObjOk;
    SettleInv(s1);
  }

  // ---- building blocks --------------------------------------------------------------

  /** Fields that no queue, priority or wait condition depends on. */
  ghost predicate SameBut(v: Tcb, v1: Tcb) {
    v1 == v.(actque := v1.actque, wupque := v1.wupque, waifbd := v1.waifbd,
             wercd := v1.wercd, flgptn := v1.flgptn, item := v1.item)
  }

  lemma FieldCore(s: State, t: Tid, v: Tcb)
    requires Core(s) && t < |s.tcb| && SameBut(s.tcb[t], v)
    ensures Core(s.(tcb := s.tcb[t := v]))
  {
    hide ReadyOk, WaitOk, OrderOk, EvtOk, ObjOk, OwnOk, PriOk;
    var s1 := s.(tcb := s.tcb[t := v]);
    SameLinks(s, s1.tcb, {});
    FieldMtx(s, t, v);
    FewerWaiters(s, s1);
  }

  lemma FieldMtx(s: State, t: Tid, v: Tcb)
    requires MtxOk(s, {}, {}) && t < |s.tcb| && SameBut(s.tcb[t], v)
    ensures MtxOk(s.(tcb := s.tcb[t := v]), {}, {})
  {
  }

  /** The counter of one object changes. */
  lemma ObjCore(s: State, o: nat, cb: Cb)
    requires Core(s) && o < |s.inib| && SameKind(s.inib[o], cb) && !IsMtx(s, o)
    requires ObjOk(s.(objs := s.objs[o := cb]), o)
    ensures Core(s.(objs := s.objs[o := cb]))
  {
    var s1 := s.(objs := s.objs[o := cb]);
    OneObj(s, s1, o);
    ObjMtx(s, o, cb);
  }

  lemma ObjMtx(s: State, o: nat, cb: Cb)
    requires MtxOk(s, {}, {}) && o < |s.inib| && SameKind(s.inib[o], cb) && !IsMtx(s, o)
    ensures MtxOk(s.(objs := s.objs[o := cb]), {}, {})
  {
  }

  lemma OneObj(s: State, s1: State, o: nat)
    requires ObjsOk(s) && o < |s.inib| && Keeps(s, s1) && s1.tcb == s.tcb && s1.wq == s.wq
    requires s1.objs == s.objs[o := s1.objs[o]] && ObjOk(s1, o)
    ensures ObjsOk(s1)
  {
    forall o1 | 0 <= o1 < |s.inib| ensures ObjOk(s1, o1) {
      if o1 != o {
        ShrunkOk(s, s1, o1);
      }
    }
  }

  lemma WakeCore(s: State, t: Tid, er: Er)
    requires Core(s) && t < |s.tcb| && s.tcb[t].tstat.Waiting?
    ensures Core(Wake(s, t, er)) && Calm(s, Wake(s, t, er))
  {
    WakeGood(s, t, er, {}, {});
    WakeObjs(s, t, er, {});
  }

  lemma WakeHeadCore(s: State, q: nat)
    requires Core(s) && q < |s.wq| && s.wq[q] != []
    ensures Core(WakeHead(s, q)) && Calm(s, WakeHead(s, q))
  {
    var t := s.wq[q][0];
    assert t in s.wq[q];
    WakeCore(s, t, E_OK);
  }

  /** Releasing a whole queue: it is empty afterwards and everything else holds. */
  lemma WakeAllCore(s: State, q: nat)
    requires Core(s) && q < |s.wq|
    ensures var s1 := WakeAll(s, s.wq[q]);
      && Core(s1) && Calm(s, s1) && s1.wq[q] == [] && s1.objs == s.objs && s1.inib == s.inib
      && (forall q1 :: 0 <= q1 < |s.wq| && s.wq[q1] == [] ==> s1.wq[q1] == [])
      && (forall u :: 0 <= u < |s.tcb| ==> s1.tcb[u].held == s.tcb[u].held)
  {
    QueueWaiting(s, q, {});
    WakeAllGood(s, s.wq[q], {}, {});
    WakeAllEffect(s, s.wq[q], {});
    var s1 := WakeAll(s, s.wq[q]);
    forall q1 | 0 <= q1 < |s.wq| && s.wq[q1] == [] ensures s1.wq[q1] == [] {
      NoMembers(s1.wq[q1]);
    }
  }

  // ---- waiting ----------------------------------------------------------------------------

  /** The running task joins queue q, whose object admits one more waiter. */
  lemma JoinInv(s: State, r: Tid, q: nat, tmo: bool)
    requires Core(s) && s.dspflg && r < |s.tcb| && s.tcb[r].tstat.Runnable? && q < |s.wq|
    requires CeilOk(s.inib, s.tcb[r].bpri, q)
    requires ObjOk(WobjMakeWait(s, r, q, tmo), if q < |s.inib| then q else q - |s.inib|)
    ensures Inv(Settle(WobjMakeWait(s, r, q, tmo)))
  {
    hide ReadyOk, WaitOk, OrderOk, EvtOk, ObjOk, OwnOk, PriOk, WobjMakeWait;
    WobjWaitGood(s, r, q, tmo);
    var s1 := WobjMakeWait(s, r, q, tmo);
    JoinEffect(s, r, q, tmo);
    var o := if q < |s.inib| then q else q - |s.inib|;
    forall o1 | 0 <= o1 < |s.inib| ensures ObjOk(s1, o1) {
      if o1 != o {
        WobjWaitObj(s, r, q, tmo, o1);
      }
    }
    SettleInv(s1);
  }

  lemma SleepInv(s: State, r: Tid, on: WaitOn, tmo: bool)
    requires Core(s) && s.dspflg && r < |s.tcb| && s.tcb[r].tstat.Runnable? && !on.Wobj?
    ensures Inv(Settle(MakeWait(s, r, on, tmo)))
  {
    hide ReadyOk, WaitOk, OrderOk, EvtOk, ObjOk, OwnOk, PriOk;
    var s1 := MakeWait(s, r, on, tmo);
    WaitLinks(s, r, on, tmo);
    SleepMtx(s, r, on, tmo);
    FewerWaiters(s, s1);
    SettleInv(s1);
  }

  lemma SleepMtx(s: State, r: Tid, on: WaitOn, tmo: bool)
    requires Shape(s) && MtxOk(s, {}, {}) && r < |s.tcb| && !on.Wobj?
    ensures MtxOk(MakeWait(s, r, on, tmo), {}, {})
  {
    SameMtx(s, MakeWait(s, r, on, tmo), {}, {});
  }

  // ---- mutexes ----------------------------------------------------------------------------

  /** Raising the first of the ready tasks to the front leaves it first: the C
      assertion after mutex_acquire cannot fail. */
  lemma AcquireFirst(s: State, r: Tid, m: nat)
    requires Links(s, {}) && r < |s.tcb| && s.tcb[r].tstat.Runnable? && IsMtx(s, m)
    requires Sched(s) == Some(r)
    ensures Sched(MutexAcquire(s, r, m)) == Some(r)
  {
    var s1 := SetHeld(SetOwner(s, m, Some(r)), r, [m] + s.tcb[r].held);
    if IsCeil(s.inib, m) && Ceil(s.inib, m) < s.tcb[r].pri {
      RaiseFirst(s.tcb, s.ready, r, Ceil(s.inib, m));
      ChangeForm(s1, r, Ceil(s.inib, m), true);
    }
  }

  lemma RaiseFirst(tcb: seq<Tcb>, ready: seq<seq<Tid>>, r: Tid, c: Pri)
    requires ReadyOk(tcb, ready, {}) && r < |tcb| && tcb[r].tstat.Runnable? && c < tcb[r].pri
    requires Top(ready) == Some(r)
    ensures var r0 := ready[tcb[r].pri := Remove(ready[tcb[r].pri], r)];
      Top(r0[c := [r] + r0[c]]) == Some(r)
  {
    var p := TopFromInv(ready, 0);
    assert ready[p][0] in ready[p];
    assert p == tcb[r].pri;
    var r0 := ready[p := Remove(ready[p], r)];
    TopIs(r0[c := [r] + r0[c]], c);
  }

  lemma LocMtxInv(s: State, r: Tid, m: nat, tmo: Tmo)
    requires Inv(s) && s.run == Some(r) && !s.intctx && (s.dspflg || tmo == Pol)
    ensures Inv(LocMtx(s, r, m, tmo).0)
  {
    if IsMtx(s, m) && CeilOk(s.inib, s.tcb[r].bpri, m) {
      if s.objs[m].loctsk == None {
        AcquireGood(s, r, m);
        if s.dspflg {
          AcquireFirst(s, r, m);
        }
      } else if s.objs[m].loctsk != Some(r) && tmo != Pol && !s.tcb[r].waifbd {
        JoinMtxObj(s, r, m, tmo == After);
        JoinInv(s, r, m, tmo == After);
      }
    }
  }

  lemma JoinMtxObj(s: State, r: Tid, m: nat, tmo: bool)
    requires Core(s) && r < |s.tcb| && s.tcb[r].tstat.Runnable?
    requires IsMtx(s, m) && s.objs[m].loctsk.Some?
    ensures ObjOk(WobjMakeWait(s, r, m, tmo), m)
  {
    hide ReadyOk, WaitOk, OrderOk, EvtOk, OwnOk, PriOk;
    assert ObjOk(s, m);
    JoinEffect(s, r, m, tmo);
  }

  lemma ReleasedInv(s: State, m: nat)
    requires Good(s, {}, {m}) && ObjsOk(s) && FlagsOk(s) && IsMtx(s, m)
    requires s.run.Some? ==> s.run.value < |s.tcb| && s.tcb[s.run.value].tstat.Runnable?
    ensures Inv(Settle(MutexRelease(s, m)))
  {
    hide ReadyOk, WaitOk, OrderOk, EvtOk, ObjOk, OwnOk, PriOk;
    ReleaseGood(s, m, {});
    hide MutexRelease;
    SettleInv(MutexRelease(s, m));
  }

  lemma UnlMtxInv(s: State, r: Tid, m: nat)
    requires Inv(s) && s.run == Some(r)
    ensures Inv(UnlMtx(s, r, m).0)
  {
    hide ReadyOk, WaitOk, OrderOk, EvtOk, ObjOk, OwnOk, PriOk;
    if IsMtx(s, m) && s.objs[m].loctsk == Some(r) {
      UnholdGood(s, r, m);
      ReleasedInv(Unhold(s, r, m), m);
    } else {
      SettledInv(s);
    }
  }

  lemma SettledInv(s: State)
    requires Inv(s)
    ensures !s.intctx ==> Settle(s) == s
  {
  }

  lemma StripCore(s: State, m: nat)
    requires Core(s) && IsMtx(s, m) && s.wq[m] == []
    ensures Core(Strip(s, m)) && Calm(s, Strip(s, m))
  {
    hide ReadyOk, WaitOk, OrderOk, EvtOk, ObjOk, PriOk;
    if s.objs[m].loctsk.Some? {
      var t := s.objs[m].loctsk.value;
      UnholdGood(s, t, m);
      UnholdEffect2(s, t, m);
      ReleaseNobody(Unhold(s, t, m), m, {});
    }
  }

  lemma UnholdEffect2(s: State, t: Tid, m: nat)
    requires Core(s) && t < |s.tcb| && IsMtx(s, m) && s.wq[m] == []
    ensures Unhold(s, t, m).wq[m] == []
  {
    UnholdEffect(s, t, m, {});
  }

  lemma IniMtxInv(s: State, m: nat)
    requires Inv(s)
    ensures Inv(IniMtx(s, m).0)
  {
    hide ReadyOk, WaitOk, OrderOk, EvtOk, ObjOk, OwnOk, PriOk;
    if IsMtx(s, m) {
      WakeAllCore(s, m);
      var s1 := WakeAll(s, s.wq[m]);
      hide WakeAll;
      StripCore(s1, m);
      hide Strip;
      SettleInv(Strip(s1, m));
    }
  }
}
