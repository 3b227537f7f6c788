/** Calls that undo each other, and what a task that is terminated comes back as. */
module KernelUndo {
  import opened Lists
  import opened KernelSpec
  import opened KernelInv
  import opened KernelKeeps
  import opened KernelMutex
  import opened KernelTasks

  /** A wake-up sent to the running task is used up by its next sleep, which does not wait. */
  lemma WakeupThenSleep(s: State, r: Tid, tmo: Tmo)
    requires Shape(s) && r < |s.tcb| && s.tcb[r].exs && s.tcb[r].tstat.Runnable? && !s.tcb[r].wupque
    ensures var (s1, er) := WupTsk(s, r); er == E_OK && Shape(s1) && r < |s1.tcb| && SlpTsk(s1, r, tmo) == (s, E_OK)
    ensures WupTsk(WupTsk(s, r).0, r) == (WupTsk(s, r).0, E_QOVR)
  {
    var v := s.tcb[r];
    UpdateTwice(s.tcb, r, v.(wupque := true), v);
    assert s.tcb[r := v] == s.tcb;
  }

  /** What is signalled to a semaphore no one waits for can be taken at once. */
  lemma SignalThenTake(s: State, r: Tid, o: nat, tmo: Tmo)
    requires Shape(s) && r < |s.tcb| && IsSem(s, o) && s.wq[o] == [] && s.objs[o].semcnt < s.inib[o].maxsem
    ensures var (s1, er) := SigSem(s, o); er == E_OK && Shape(s1) && r < |s1.tcb| && WaiSem(s1, r, o, tmo) == (s, E_OK)
  {
    UpdateTwice(s.objs, o, SemCb(s.objs[o].semcnt + 1), s.objs[o]);
    assert s.objs[o := s.objs[o]] == s.objs;
  }

  /** A block taken from the free list and given back leaves the pool as it was, and is
      the next to be handed out. */
  lemma GetThenRelease(p: Pool, blkcnt: nat)
    requires PoolOk(p, blkcnt) && p.fblkcnt > 0
    ensures var b := NextBlock(p); var q := RelBlock(GetBlock(p), b);
      && b in GetBlock(p).alloc && NextBlock(q) == b && q.fblkcnt == p.fblkcnt && q.alloc == p.alloc
      && PoolOk(q, blkcnt)
      && (p.free != [] ==> q == p)
  {
    var b := NextBlock(p);
    if p.free != [] {
      assert b in p.free;
      assert [b] + p.free[1..] == p.free;
    }
    assert b !in p.alloc;
    ConsNoDup(b, GetBlock(p).free);
    assert p.alloc + {b} - {b} == p.alloc;
  }

  /** Forbidding and permitting dispatches, or masking and unmasking interrupts, is no change. */
  lemma DisableThenEnable(s: State)
    requires Inv(s) && !s.intctx && s.dspflg
    ensures EnaDsp(DisDsp(s)) == s && ChgIpm(ChgIpm(s, false), true) == s
    ensures !ChgIpm(DisDsp(ChgIpm(s, false)), true).dspflg && !EnaDsp(ChgIpm(DisDsp(s), false)).dspflg
  {
    hide Links, FreeOk, MtxOk, ObjsOk;
  }

  // ---- rotation ---------------------------------------------------------------------------

  function RotateTimes(s: State, p: Pri, n: nat): State
    requires Shape(s)
    ensures Keeps(s, RotateTimes(s, p, n))
  {
    if n == 0 then s else RotateReadyQueue(RotateTimes(s, p, n - 1), p)
  }

  /** After n rotations the first n entries stand behind the others, in their order. */
  lemma {:induction false} RotatedBy(s: State, p: Pri, n: nat)
    requires Shape(s) && n <= |s.ready[p]|
    ensures var q := s.ready[p]; RotateTimes(s, p, n) == s.(ready := s.ready[p := q[n..] + q[..n]])
  {
    var q := s.ready[p];
    if n == 0 {
      assert q[0..] + q[..0] == q;
      assert s.ready[p := q] == s.ready;
    } else {
      RotatedBy(s, p, n - 1);
      var q1 := q[n - 1..] + q[..n - 1];
      assert |q| > 1 ==> q1[1..] + [q1[0]] == q[n..] + q[..n];
      assert |q| == 1 ==> q1 == q[n..] + q[..n];
      UpdateTwice(s.ready, p, q1, q[n..] + q[..n]);
    }
  }

  /** Every runnable task of a priority gets its turn: as many rotations as there are
      tasks bring the queue back, having put each of them first once. */
  lemma RotationIsFair(s: State, p: Pri, k: nat)
    requires Shape(s) && k < |s.ready[p]|
    ensures RotateTimes(s, p, |s.ready[p]|) == s
    ensures RotateTimes(s, p, k).ready[p] != [] && RotateTimes(s, p, k).ready[p][0] == s.ready[p][k]
  {
    var q := s.ready[p];
    RotatedBy(s, p, |q|);
    RotatedBy(s, p, k);
    assert q[|q|..] + q[..|q|] == q;
    assert s.ready[p := q] == s.ready;
  }

  // ---- termination ------------------------------------------------------------------------

  /** A terminated task holds no mutex, waits for nothing, has its initial priority and no
      pending requests; it is active again exactly when an activation was queued, and
      then that activation is used up. */
  lemma TerminatedTask(s: State, r: Tid, t: Tid)
    requires Inv(s) && s.run == Some(r) && TerTsk(s, r, t).1 == E_OK
    ensures var s1 := TerTsk(s, r, t).0; var v := s.tcb[t]; var v1 := s1.tcb[t];
      && t < |s1.tcb| == |s.tcb| && Inv(s1)
      && v1.tstat == (if v.actque then Runnable else Dormant) && !v1.actque
      && v1.held == [] && v1.bpri == v.ini.ipri && v1.pri == v.ini.ipri && !v1.wupque && !v1.waifbd
      && t !in s1.evts && (forall q :: 0 <= q < |s1.wq| ==> t !in s1.wq[q]) && OwnsNothing(s1, t)
  {
    hide ReadyOk, WaitOk, OrderOk, EvtOk, OwnOk, PriOk, ObjOk, Finish, OwnsNothing;
    TerTskInv(s, r, t);
    DetachGood(s, t);
    EndedFields(Detach(s, t), t);
    NowhereLeft(TerTsk(s, r, t).0, t);
  }

  /** A task that does not wait and holds nothing is on no wait queue and owns no mutex. */
  lemma NowhereLeft(s: State, t: Tid)
    requires Inv(s) && t < |s.tcb| && !s.tcb[t].tstat.Waiting? && s.tcb[t].held == []
    ensures t !in s.evts && (forall q :: 0 <= q < |s.wq| ==> t !in s.wq[q]) && OwnsNothing(s, t)
  {
    hide ReadyOk, OrderOk, PriOk, ObjOk;
    forall m | 0 <= m < |s.inib| ensures s.objs[m] != MtxCb(Some(t)) {
      assert s.objs[m].MtxCb? ==> IsMtx(s, m);
    }
  }

  ghost predicate OwnsNothing(s: State, t: Tid) {
    |s.objs| == |s.inib| && forall m :: 0 <= m < |s.inib| ==> s.objs[m] != MtxCb(Some(t))
  }

  lemma EndedFields(s: State, t: Tid)
    requires Good(s, {t}, {}) && ObjsOk(s) && t < |s.tcb|
    ensures var v := s.tcb[t]; var v1 := Finish(s, t).tcb[t];
      && v1.tstat == (if v.actque then Runnable else Dormant) && !v1.actque
      && v1.held == [] && v1.bpri == v.ini.ipri && v1.pri == v.ini.ipri && !v1.wupque && !v1.waifbd
  {
    hide ReadyOk, WaitOk, OrderOk, EvtOk, OwnOk, PriOk, ObjOk, ReleaseAll;
    ReleaseAllGood(s, t, {t});
  }
}
