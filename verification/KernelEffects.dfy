/** What the calls on tasks and mutexes do, beyond the state of each task: where tasks stand
    in the ready queues, who becomes the owner of a mutex, what calls undo each other. */
module KernelEffects {
  import opened Lists
  import opened KernelSpec
  import opened KernelInv
  import opened KernelKeeps
  import opened KernelMutex
  import opened KernelSteps
  import opened KernelTasks
  import opened KernelRun
  import opened KernelRest
  import opened KernelResults
  import opened KernelUndo
  import opened KernelWaits
  import opened KernelEnds
  import opened KernelStates
  import opened KernelCalls

  // ---- activation ---------------------------------------------------------------------------------

  /** act_tsk and iact_tsk start a dormant task at the end of the ready queue of its priority;
      for a task already active they record one request, and refuse a second. */
  lemma Activation(s: State, t: Tid)
    requires Shape(s) && t < |s.tcb| && s.tcb[t].exs
    ensures var (s1, er) := ActTsk(s, t); var v := s.tcb[t];
      if v.tstat.Dormant? then
        er == E_OK && s1 == s.(tcb := s.tcb[t := v.(tstat := Runnable)], ready := s.ready[v.pri := s.ready[v.pri] + [t]])
      else if !v.actque then
        && er == E_OK && s1 == s.(tcb := s.tcb[t := v.(actque := true)])
        && Shape(s1) && ActTsk(s1, t) == (s1, E_QOVR)
      else s1 == s && er == E_QOVR
  {
  }

  /** A request recorded is honoured when the task ends, whoever ends it: it starts again at
      once, and the request is used up. */
  lemma ActThenTer(s: State, r: Tid, t: Tid)
    requires Inv(s) && s.run == Some(r) && !s.intctx && t < |s.tcb| && t != r && s.tcb[t].exs && !s.tcb[t].tstat.Dormant?
    requires !s.tcb[t].actque
    ensures var (s1, er) := Step(s, Manage(OpActTsk(t)));
      && er == E_OK && Shape(s1) && s1.run == Some(r)
      && var (s2, er2) := Step(s1, Manage(OpTerTsk(t)));
         er2 == E_OK && |s2.tcb| == |s.tcb| && s2.tcb[t].tstat == Runnable && !s2.tcb[t].actque
  {
    hide ReadyOk, WaitOk, OrderOk, EvtOk, OwnOk, PriOk, ObjOk, Step;
    Queued(s, t);
    EndedAgain(s.(tcb := s.tcb[t := s.tcb[t].(actque := true)]), Manage(OpTerTsk(t)), r, t);
  }

  /** The end of a task with a request recorded. */
  lemma EndedAgain(s: State, op: Op, r: Tid, t: Tid)
    requires Inv(s) && s.run == Some(r) && !s.intctx && t < |s.tcb| && s.tcb[t].exs && !s.tcb[t].tstat.Dormant?
    requires s.tcb[t].actque && if t == r then op == Manage(OpExtTsk) else op == Manage(OpTerTsk(t))
    ensures var (s1, er) := Step(s, op);
      && er == (if t == r then Blocked else E_OK)
      && |s1.tcb| == |s.tcb| && s1.tcb[t].tstat == Runnable && !s1.tcb[t].actque
  {
    hide ReadyOk, WaitOk, OrderOk, EvtOk, OwnOk, PriOk, ObjOk, Step;
    if t == r {
      Leaves(s, r);
    } else {
      TaskResult(s, op, t);
    }
    assert Ends(s, op, Step(s, op).1, t);
    TaskAfter(s, op, t);
  }

  lemma ActThenExt(s: State, r: Tid)
    requires Inv(s) && s.run == Some(r) && !s.intctx && r < |s.tcb| && !s.tcb[r].actque
    ensures var (s1, er) := Step(s, Manage(OpActTsk(r)));
      && er == E_OK && Shape(s1) && s1.run == Some(r)
      && var s2 := Step(s1, Manage(OpExtTsk)).0;
         |s2.tcb| == |s.tcb| && s2.tcb[r].tstat == Runnable && !s2.tcb[r].actque
  {
    hide ReadyOk, WaitOk, OrderOk, EvtOk, OwnOk, PriOk, ObjOk, Step;
    RunningExists(s, r);
    Queued(s, r);
    EndedAgain(s.(tcb := s.tcb[r := s.tcb[r].(actque := true)]), Manage(OpExtTsk), r, r);
  }

  lemma Leaves(s: State, r: Tid)
    requires Shape(s) && s.run == Some(r) && r < |s.tcb| && !s.intctx
    ensures Step(s, Manage(OpExtTsk)).1 == Blocked
  {
    hide Finish, MakeNonRunnable;
  }

  /** The step that records the request. */
  lemma Queued(s: State, t: Tid)
    requires Inv(s) && s.run.Some? && !s.intctx && t < |s.tcb| && s.tcb[t].exs && !s.tcb[t].tstat.Dormant?
    requires !s.tcb[t].actque
    ensures var s1 := s.(tcb := s.tcb[t := s.tcb[t].(actque := true)]);
      Inv(s1) && Step(s, Manage(OpActTsk(t))) == (s1, E_OK)
  {
    hide ReadyOk, WaitOk, OrderOk, EvtOk, OwnOk, PriOk, ObjOk;
    var v := s.tcb[t].(actque := true);
    FieldCore(s, t, v);
    CalmInv(s, s.(tcb := s.tcb[t := v]));
    SettledInv(s.(tcb := s.tcb[t := v]));
  }

  /** A task that ends holds no mutex, has its initial priority, and is on no wait queue; if it
      starts again it stands last in the ready queue of that priority, behind every task
      released by its end. */
  ghost predicate EndedClean(s: State, s1: State, t: Tid) {
    && t < |s.tcb| == |s1.tcb| && |s1.ready| == 16
    && s1.tcb[t].held == [] && s1.tcb[t].pri == s.tcb[t].ini.ipri
    && t !in s1.evts && (forall q :: 0 <= q < |s1.wq| ==> t !in s1.wq[q]) && OwnsNothing(s1, t)
    && var q := s1.ready[s.tcb[t].ini.ipri]; s.tcb[t].actque ==> q != [] && q[|q| - 1] == t
  }

  lemma FinishLast(s: State, t: Tid)
    requires Good(s, {t}, {}) && ObjsOk(s) && t < |s.tcb|
    ensures var s1 := Finish(s, t); var p := s.tcb[t].ini.ipri;
      && s1.tcb[t].held == [] && s1.tcb[t].pri == p && !s1.tcb[t].tstat.Waiting?
      && (s.tcb[t].actque ==> s1.ready[p] != [] && s1.ready[p][|s1.ready[p]| - 1] == t)
  {
    hide ReadyOk, WaitOk, OrderOk, EvtOk, OwnOk, PriOk, ObjOk, ReleaseAll;
    ReleaseAllGood(s, t, {t});
  }

  lemma TerminatedClean(s: State, r: Tid, t: Tid)
    requires Inv(s) && s.run == Some(r) && TerTsk(s, r, t).1 == E_OK
    ensures EndedClean(s, TerTsk(s, r, t).0, t)
  {
    hide ReadyOk, WaitOk, OrderOk, EvtOk, OwnOk, PriOk, ObjOk, Finish, Detach, OwnsNothing;
    TerTskInv(s, r, t);
    DetachGood(s, t);
    FinishLast(Detach(s, t), t);
    NowhereLeft(TerTsk(s, r, t).0, t);
  }

  lemma ExitedClean(s: State, r: Tid)
    requires Inv(s) && s.run == Some(r)
    ensures r < |s.tcb| && EndedClean(s, ExtTsk(s, r).0, r)
  {
    hide ReadyOk, WaitOk, OrderOk, EvtOk, OwnOk, PriOk, ObjOk, Finish, OwnsNothing;
    ExtTskInv(s, r);
    var s1 := s.(disdsp := false, ipmflg := true, dspflg := true);
    FlagsCore(s, s1);
    DetachGood(s1, r);
    assert Detach(s1, r) == MakeNonRunnable(s1, r);
    FinishLast(Detach(s1, r), r);
    NowhereLeft(ExtTsk(s, r).0, r);
  }

  // ---- the base priority --------------------------------------------------------------------------

  /** t holds a mutex with a ceiling. */
  ghost predicate HoldsCeiling(s: State, t: Tid)
    requires t < |s.tcb|
  {
    exists m: nat :: m in s.tcb[t].held && m < |s.inib| && s.inib[m].MtxInib? && s.inib[m].proto.Ceiling?
  }

  /** chg_pri gives the task the base priority asked for, or its initial one.  Without a ceiling
      mutex its current priority is the same; with one, nothing else changes. */
  lemma ChgPriEffect(s: State, r: Tid, t: Tid, p: Option<Pri>)
    requires Inv(s) && s.run == Some(r) && !s.intctx && ChgPri(s, r, t, p).1 == E_OK
    ensures t < |s.tcb|
    ensures var newb := if p.Some? then p.value else s.tcb[t].ini.ipri;
      if HoldsCeiling(s, t) then ChgPri(s, r, t, p).0 == s.(tcb := s.tcb[t := s.tcb[t].(bpri := newb)])
      else Reprioritized(s, ChgPri(s, r, t, p).0, t, newb)
  {
    hide ReadyOk, WaitOk, OrderOk, EvtOk, OwnOk, PriOk, ObjOk, ChangePriority, CheckCeilpri, ScanCeilmtx, HoldsCeiling;
    HoldsIs(s, t);
    ReprioritizedIs(s, t, if p.Some? then p.value else s.tcb[t].ini.ipri);
  }

  /** t has the base and the current priority newb; if it can run it stands last in that ready
      queue, and no queue changes but the one it is in. */
  ghost predicate Reprioritized(s: State, s1: State, t: Tid, newb: Pri) {
    && t < |s.tcb| && |s.ready| == 16
    && var v := s.tcb[t]; var r0 := s.ready[v.pri := Remove(s.ready[v.pri], t)];
      && s1.tcb == s.tcb[t := v.(bpri := newb, pri := newb)]
      && s1.objs == s.objs && s1.evts == s.evts && s1.freeTcb == s.freeTcb && |s1.wq| == |s.wq|
      && s1.ready == (if v.tstat.Runnable? then r0[newb := r0[newb] + [t]] else s.ready)
      && forall q :: 0 <= q < |s.wq| && !WaitsOn(v, q) ==> s1.wq[q] == s.wq[q]
  }

  lemma ReprioritizedIs(s: State, t: Tid, newb: Pri)
    requires Shape(s) && t < |s.tcb|
    ensures var s0 := s.(tcb := s.tcb[t := s.tcb[t].(bpri := newb)]);
      Reprioritized(s, Settle(ChangePriority(s0, t, newb, false)), t, newb)
  {
    hide ChangePriority, Remove;
    ChangeForm(s.(tcb := s.tcb[t := s.tcb[t].(bpri := newb)]), t, newb, false);
  }

  lemma HoldsIs(s: State, t: Tid)
    requires t < |s.tcb|
    ensures ScanCeilmtx(s, t) <==> HoldsCeiling(s, t)
  {
  }

  /** A task in a wait queue in priority order goes behind all tasks there of its new priority
      or a higher one, and before all others. */
  lemma ChgPriRequeues(s: State, r: Tid, t: Tid, p: Option<Pri>, q: nat)
    requires Inv(s) && s.run == Some(r) && !s.intctx && ChgPri(s, r, t, p).1 == E_OK && t < |s.tcb|
    requires On(s, t, q) && q < |s.inib| && InOrder(s.inib[q]) && !HoldsCeiling(s, t)
    ensures var s1 := ChgPri(s, r, t, p).0; |s1.wq| == |s.wq| && Requeued(s1, t, Remove(s.wq[q], t), s1.wq[q])
  {
    hide ReadyOk, WaitOk, OrderOk, EvtOk, OwnOk, PriOk, ObjOk, ChangePriority, CheckCeilpri, ScanCeilmtx, HoldsCeiling, Remove,
         Requeued;
    var newb := if p.Some? then p.value else s.tcb[t].ini.ipri;
    HoldsIs(s, t);
    MovesInQueue(s, t, newb, q);
  }

  ghost predicate Requeued(s1: State, t: Tid, others: seq<Tid>, now: seq<Tid>) {
    exists k :: 0 <= k <= |others| && GoesAt(s1, t, others, now, k)
  }

  lemma MovesInQueue(s: State, t: Tid, newb: Pri, q: nat)
    requires Links(s, {}) && t < |s.tcb| && On(s, t, q) && q < |s.inib| && InOrder(s.inib[q])
    ensures var s0 := s.(tcb := s.tcb[t := s.tcb[t].(bpri := newb)]); var s1 := Settle(ChangePriority(s0, t, newb, false));
      |s1.wq| == |s.wq| && Requeued(s1, t, Remove(s.wq[q], t), s1.wq[q])
  {
    hide ReadyOk, WaitOk, OrderOk, EvtOk, ChangePriority, Remove, InsertTpri, TpriPos;
    var s0 := s.(tcb := s.tcb[t := s.tcb[t].(bpri := newb)]);
    ChangeForm(s0, t, newb, false);
    var tcb1 := WithPri(s0.tcb, t, newb);
    RequeuedAt(s, tcb1, t, newb, q);
    var q0 := Remove(s.wq[q], t);
    var s1 := Settle(ChangePriority(s0, t, newb, false));
    assert GoesAt(s1, t, q0, s1.wq[q], TpriPos(q0, newb, tcb1));
  }

  lemma RequeuedAt(s: State, tcb1: seq<Tcb>, t: Tid, newb: Pri, q: nat)
    requires Links(s, {}) && t < |s.tcb| == |tcb1| && q < |s.wq| && TpriQueue(s, q)
    requires tcb1[t].pri == newb && forall u :: 0 <= u < |s.tcb| && u != t ==> tcb1[u].pri == s.tcb[u].pri
    ensures var q0 := Remove(s.wq[q], t); var k := TpriPos(q0, newb, tcb1);
      && k <= |q0| && InsertTpri(q0, t, newb, tcb1) == q0[..k] + [t] + q0[k..]
      && forall i :: 0 <= i < |q0| ==> q0[i] < |tcb1| && (i < k <==> tcb1[q0[i]].pri <= newb)
  {
    hide ReadyOk, EvtOk, Remove;
    var q0 := Remove(s.wq[q], t);
    RemoveSpec(s.wq[q], t);
    RemoveSorted(s.tcb, s.wq[q], t);
    SortedFrame(s.tcb, tcb1, q0);
    TpriPosSpec(q0, newb, tcb1);
    InsertTpriSplit(q0, t, newb, tcb1);
  }

  /** chg_pri returns E_ILUSE exactly below the limit of the domain of the caller, or when a
      ceiling held or awaited would be below the new base priority. */
  lemma ChgPriRefused(s: State, r: Tid, t: Tid, p: Option<Pri>)
    requires Inv(s) && s.run == Some(r) && !s.intctx && r < |s.tcb| && t < |s.tcb| && s.tcb[t].exs && !s.tcb[t].tstat.Dormant?
    ensures var (s1, er) := ChgPri(s, r, t, p); var newb := if p.Some? then p.value else s.tcb[t].ini.ipri;
      && (er == E_ILUSE <==> newb < s.tcb[r].ini.minpri || CeilingBelow(s, t, newb))
      && (er == E_ILUSE ==> s1 == s) && (er == E_OK || er == E_ILUSE)
  {
    hide ReadyOk, WaitOk, OrderOk, EvtOk, OwnOk, PriOk, ObjOk, ChangePriority, CheckCeilpri, CeilingBelow, ScanCeilmtx, Settle;
    BelowIs(s, t, if p.Some? then p.value else s.tcb[t].ini.ipri);
  }

  // ---- coming back from a wait --------------------------------------------------------------------

  /** The wait of t has ended with er and nothing else has happened: unless suspended, t stands
      last in the ready queue of its priority; it is on no wait queue, and its event block is
      not registered. */
  ghost predicate Returns(s: State, s1: State, t: Tid, er: Er) {
    && t < |s.tcb| && s.tcb[t].tstat.Waiting? && |s.ready| == 16
    && var v := s.tcb[t];
      && s1.tcb == s.tcb[t := v.(wercd := er, tstat := if v.tstat.susp then Suspended else Runnable)]
      && s1.ready == (if v.tstat.susp then s.ready else s.ready[v.pri := s.ready[v.pri] + [t]])
      && |s1.wq| == |s.wq| && (forall q :: 0 <= q < |s.wq| ==> s1.wq[q] == Remove(s.wq[q], t))
      && s1.evts == s.evts - {t}
      && s1.objs == s.objs && s1.inib == s.inib && s1.freeTcb == s.freeTcb && CpuOf(s1) == CpuOf(s)
  }

  lemma WakeReturns(s: State, t: Tid, er: Er)
    requires Links(s, {}) && t < |s.tcb| && s.tcb[t].tstat.Waiting?
    ensures Returns(s, Wake(s, t, er), t, er)
  {
    hide ReadyOk, OrderOk, Remove;
    forall q | 0 <= q < |s.wq| ensures Wake(s, t, er).wq[q] == Remove(s.wq[q], t) {
      WakeQueue(s, t, er, q);
    }
  }

  /** Every call that ends exactly one wait and has no data to give: rel_wai, wup_tsk on a
      sleeping task, a time limit that is due, and a signal to a semaphore. */
  lemma OneReturns(s: State, t: Tid)
    requires Inv(s) && t < |s.tcb| && s.tcb[t].tstat.Waiting?
    ensures Returns(s, RelWai(s, t).0, t, E_RLWAI)
    ensures s.tcb[t].tstat.on == Slp ==> Returns(s, WupTsk(s, t).0, t, E_OK)
    ensures s.tcb[t].tmo ==> Returns(s, IntStep(s, OpTimeout(t)).0, t, if s.tcb[t].tstat.on == Dly then E_OK else E_TMOUT)
    ensures forall o :: 0 <= o < |s.inib| && IsSem(s, o) && Next(s, t, o) ==> Returns(s, SigSem(s, o).0, t, E_OK)
  {
    hide ReadyOk, WaitOk, OrderOk, OwnOk, PriOk, ObjOk, Wake, Returns;
    WakeReturns(s, t, E_RLWAI);
    WakeReturns(s, t, E_OK);
    WakeReturns(s, t, E_TMOUT);
  }

  // ---- suspension ---------------------------------------------------------------------------------

  /** A suspended task leaves its ready queue, in which the others keep their order; resumed,
      it stands last. */
  lemma SuspendRunnable(s: State, r: Tid, t: Tid)
    requires Inv(s) && s.run == Some(r) && !s.intctx && t < |s.tcb| && s.tcb[t].tstat.Runnable?
    ensures var (s1, er) := SusTsk(s, r, t); var v := s.tcb[t];
      if t == r && !s.dspflg then s1 == s && er == E_CTX
      else er == E_OK && s1 == s.(tcb := s.tcb[t := v.(tstat := Suspended)], run := s1.run,
                                  ready := s.ready[v.pri := Remove(s.ready[v.pri], t)])
  {
    hide ReadyOk, WaitOk, OrderOk, EvtOk, OwnOk, PriOk, ObjOk, Remove;
    WaitingExists(s, t);
  }

  lemma ResumeSuspended(s: State, t: Tid)
    requires Inv(s) && !s.intctx && t < |s.tcb| && s.tcb[t].tstat.Suspended?
    ensures var (s1, er) := RsmTsk(s, t); var v := s.tcb[t];
      er == E_OK && s1 == s.(tcb := s.tcb[t := v.(tstat := Runnable)], run := s1.run,
                             ready := s.ready[v.pri := s.ready[v.pri] + [t]])
  {
    hide ReadyOk, WaitOk, OrderOk, EvtOk, OwnOk, PriOk, ObjOk;
  }

  // ---- rotation -----------------------------------------------------------------------------------

  /** rot_rdq moves the first task of the queue of the priority it names, where TPRI_SELF means
      the base priority of the caller, to the end of that queue. */
  lemma Rotation(s: State, r: Tid, p: Option<Pri>)
    requires Inv(s) && s.run == Some(r) && !s.intctx && r < |s.tcb|
    ensures var (s1, er) := Step(s, Manage(OpRotRdq(p))); var b := if p.Some? then p.value else s.tcb[r].bpri;
      er == E_OK && Rotated(s, s1, b)
  {
    hide ReadyOk, WaitOk, OrderOk, EvtOk, OwnOk, PriOk, ObjOk;
    RotatesAt(s, if p.Some? then p.value else s.tcb[r].bpri);
  }

  lemma RotationInt(s: State, p: Pri)
    requires Inv(s) && s.intctx
    ensures var (s1, er) := Step(s, Int(OpIRotRdq(p))); er == E_OK && Rotated(s, s1, p) && s1.run == s.run
  {
    hide ReadyOk, WaitOk, OrderOk, EvtOk, OwnOk, PriOk, ObjOk;
    RotatesAt(s, p);
  }

  predicate Rotated(s: State, s1: State, p: Pri)
    requires |s.ready| == 16
  {
    var q := s.ready[p];
    && s1.ready == s.ready[p := if q == [] then [] else q[1..] + [q[0]]]
    && s1.tcb == s.tcb && s1.wq == s.wq && s1.objs == s.objs && s1.evts == s.evts
  }

  lemma RotatesAt(s: State, p: Pri)
    requires Shape(s)
    ensures Rotated(s, RotateReadyQueue(s, p), p)
  {
    var q := s.ready[p];
    assert s.ready[p := q] == s.ready;
    assert |q| == 1 ==> q[1..] + [q[0]] == q;
  }

  /** A caller that a ceiling raises above its base priority keeps its place and the processor
      when it rotates with TPRI_SELF. */
  lemma RotateSelf(s: State, r: Tid)
    requires Inv(s) && s.run == Some(r) && !s.intctx && r < |s.tcb| && s.tcb[r].pri != s.tcb[r].bpri
    ensures var s1 := Step(s, Manage(OpRotRdq(None))).0; s1.run == s.run && s1.ready[s.tcb[r].pri] == s.ready[s.tcb[r].pri]
  {
    hide ReadyOk, WaitOk, OrderOk, EvtOk, OwnOk, PriOk, ObjOk, Top;
    RotatesAt(s, s.tcb[r].bpri);
    if s.dspflg {
      RaisedStays(s, RotateReadyQueue(s, s.tcb[r].bpri).ready, r);
    }
  }

  lemma RaisedStays(s: State, ready: seq<seq<Tid>>, r: Tid)
    requires Inv(s) && s.run == Some(r) && !s.intctx && s.dspflg && r < |s.tcb| && s.tcb[r].pri != s.tcb[r].bpri
    requires |ready| == 16 && ready == s.ready[s.tcb[r].bpri := ready[s.tcb[r].bpri]]
    ensures Top(ready) == Some(r)
  {
    hide WaitOk, OrderOk, EvtOk, OwnOk, ObjOk;
    CalcPriSpec(s.inib, s.tcb[r].bpri, s.tcb[r].held);
    var p := TopFromInv(s.ready, 0);
    FirstOfQueue(s.tcb, s.ready, r);
    TopIs(ready, s.tcb[r].pri);
  }

  // ---- creation and deletion ----------------------------------------------------------------------

  /** acre_tsk takes the first free control block for a task with the priority asked for, which
      starts at once, last in its ready queue, with TA_ACT. */
  lemma Creation(s: State, ipri: Pri, act: bool)
    requires Inv(s) && s.freeTcb != []
    ensures s.freeTcb[0] < |s.tcb|
    ensures var (s1, er) := AcreTsk(s, ipri, act); var t := s.freeTcb[0];
      && er == E_OK && s1.freeTcb == s.freeTcb[1..] && |s1.tcb| == |s.tcb|
      && (forall u :: 0 <= u < |s.tcb| && u != t ==> s1.tcb[u] == s.tcb[u])
      && s1.tcb[t].exs && s1.tcb[t].ini == s.tcb[t].ini.(ipri := ipri) && s1.tcb[t].pri == ipri && s1.tcb[t].held == []
      && s1.ready == (if act then s.ready[ipri := s.ready[ipri] + [t]] else s.ready)
      && s1 == s.(tcb := s1.tcb, ready := s1.ready, freeTcb := s1.freeTcb)
  {
    hide ReadyOk, WaitOk, OrderOk, EvtOk, OwnOk, PriOk, ObjOk, NoDup;
    assert s.freeTcb[0] in s.freeTcb;
  }

  /** del_tsk gives the control block back, behind the other free ones, and changes nothing
      else; the task can then not be activated. */
  lemma Deletion(s: State, t: Tid)
    requires Shape(s) && DelTsk(s, t).1 == E_OK
    ensures t < |s.tcb| && s.tcb[t].ini.dyn
    ensures var s1 := DelTsk(s, t).0;
      && s1 == s.(tcb := s.tcb[t := s.tcb[t].(exs := false)], freeTcb := s.freeTcb + [t])
      && Shape(s1) && ActTsk(s1, t) == (s1, E_NOEXS)
  {
  }

  // ---- start-up -----------------------------------------------------------------------------------

  function IfPriority(cfg: seq<TaskCfg>, t: Tid, p: Pri): seq<Tid> {
    if t < |cfg| && cfg[t].ipri == p then [t] else []
  }

  /** The tasks of ts with initial priority p, in order. */
  function OfPriority(cfg: seq<TaskCfg>, ts: seq<Tid>, p: Pri): seq<Tid> {
    if ts == [] then [] else IfPriority(cfg, ts[0], p) + OfPriority(cfg, ts[1..], p)
  }

  /** After start-up exactly the tasks with TA_ACT can run, each ready queue in the order of the
      task order table; no one waits, and every object is in its initial state. */
  lemma BootState(cfg: seq<TaskCfg>, inib: seq<Inib>, acts: seq<Tid>)
    requires CfgOk(cfg, inib, acts)
    ensures var s := Boot(cfg, inib, acts);
      && |s.tcb| == |cfg| && |s.ready| == 16 && s.inib == inib && |s.objs| == |inib|
      && (forall t :: 0 <= t < |cfg| ==>
            && s.tcb[t].tstat == (if t in acts then Runnable else Dormant)
            && BookOf(s.tcb[t]) == Fresh(cfg[t].ipri).(exs := cfg[t].exs) && s.tcb[t].ini.minpri == cfg[t].minpri)
      && (forall p :: 0 <= p < 16 ==> s.ready[p] == OfPriority(cfg, acts, p))
      && (forall o :: 0 <= o < |inib| ==> s.objs[o] == InitCb(inib[o])) && s.evts == {}
      && CpuOf(s) == Cpu(Top(s.ready), false, true, false, true)
  {
    hide ReadyOk, WaitOk, OrderOk, EvtOk, OwnOk, PriOk, ObjOk, InitCb, OfPriority, FreeFrom, StartAll, Top;
    BlankCore(cfg, inib);
    StartTcbs(Blank(cfg, inib), acts);
    forall p | 0 <= p < 16 ensures Boot(cfg, inib, acts).ready[p] == OfPriority(cfg, acts, p) {
      StartReady(Blank(cfg, inib), cfg, acts, p);
    }
  }

  lemma InParts(ts: seq<Tid>)
    requires ts != []
    ensures forall t :: t in ts <==> t == ts[0] || t in ts[1..]
  {
    assert ts == [ts[0]] + ts[1..];
  }

  lemma {:induction false} StartTcbs(s: State, ts: seq<Tid>)
    requires Shape(s) && forall t :: t in ts ==> t < |s.tcb|
    ensures var s1 := StartAll(s, ts);
      && Keeps(s, s1) && s1.objs == s.objs && s1.evts == s.evts && s1.wq == s.wq
      && (forall t :: 0 <= t < |s.tcb| ==> s1.tcb[t] == if t in ts then s.tcb[t].(tstat := Runnable) else s.tcb[t])
    decreases |ts|
  {
    if ts != [] {
      assert ts[0] in ts;
      InParts(ts);
      StartTcbs(MakeActive(s, ts[0]), ts[1..]);
    }
  }

  lemma {:induction false} StartReady(s: State, cfg: seq<TaskCfg>, ts: seq<Tid>, p: Pri)
    requires Shape(s) && |s.tcb| == |cfg| && (forall t :: 0 <= t < |cfg| ==> s.tcb[t].pri == cfg[t].ipri)
    requires forall t :: t in ts ==> t < |cfg|
    ensures |StartAll(s, ts).ready| == 16 && StartAll(s, ts).ready[p] == s.ready[p] + OfPriority(cfg, ts, p)
    decreases |ts|
  {
    hide MakeActive, OfPriority, IfPriority;
    NoneOf(cfg, p);
    if ts != [] {
      assert ts[0] in ts;
      InParts(ts);
      StartOne(s, cfg, ts[0], p);
      var s1 := MakeActive(s, ts[0]);
      StartReady(s1, cfg, ts[1..], p);
      OneOf(cfg, ts, p);
      assert s.ready[p] + (IfPriority(cfg, ts[0], p) + OfPriority(cfg, ts[1..], p))
          == s.ready[p] + IfPriority(cfg, ts[0], p) + OfPriority(cfg, ts[1..], p);
    }
  }

  lemma NoneOf(cfg: seq<TaskCfg>, p: Pri)
    ensures OfPriority(cfg, [], p) == []
  {
  }

  lemma OneOf(cfg: seq<TaskCfg>, ts: seq<Tid>, p: Pri)
    requires ts != []
    ensures OfPriority(cfg, ts, p) == IfPriority(cfg, ts[0], p) + OfPriority(cfg, ts[1..], p)
  {
  }

  lemma StartOne(s: State, cfg: seq<TaskCfg>, t: Tid, p: Pri)
    requires Shape(s) && t < |s.tcb| == |cfg| && (forall u :: 0 <= u < |cfg| ==> s.tcb[u].pri == cfg[u].ipri)
    ensures var s1 := MakeActive(s, t);
      && |s1.tcb| == |s.tcb| && (forall u :: 0 <= u < |cfg| ==> s1.tcb[u].pri == cfg[u].ipri)
      && |s1.ready| == 16 && s1.ready[p] == s.ready[p] + IfPriority(cfg, t, p)
  {
  }
}
