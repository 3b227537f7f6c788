/** What holds between service calls, in pieces that the steps of one call keep
    one at a time.  ex is the set of tasks in transit: taken out of the queues by
    the call in progress and not yet put where their new state demands. */
module KernelInv {
  import opened Lists
  import opened KernelSpec

  // ---- queues and task states ---------------------------------------------------

  /** Ready queue p holds exactly the runnable tasks of priority p. */
  ghost predicate ReadyOk(tcb: seq<Tcb>, ready: seq<seq<Tid>>, ex: set<Tid>) {
    && |ready| == 16
    && (forall p :: 0 <= p < 16 ==> NoDup(ready[p]))
    && (forall p, t {:trigger t in ready[p]} :: 0 <= p < 16 && t in ready[p] ==>
          t < |tcb| && t !in ex && tcb[t].tstat.Runnable? && tcb[t].pri == p)
    && (forall t :: 0 <= t < |tcb| && t !in ex && tcb[t].tstat.Runnable? ==> t in ready[tcb[t].pri])
  }

  ghost predicate Sorted(tcb: seq<Tcb>, q: seq<Tid>) {
    && (forall i :: 0 <= i < |q| ==> q[i] < |tcb|)
    && (forall i, j :: 0 <= i < j < |q| ==> tcb[q[i]].pri <= tcb[q[j]].pri)
  }

  /** Wait queue q holds exactly the tasks waiting on q. */
  ghost predicate WaitOk(tcb: seq<Tcb>, wq: seq<seq<Tid>>, ex: set<Tid>) {
    && (forall q :: 0 <= q < |wq| ==> NoDup(wq[q]))
    && (forall q, t {:trigger t in wq[q]} :: 0 <= q < |wq| && t in wq[q] ==>
          t < |tcb| && t !in ex && WaitsOn(tcb[t], q))
    && (forall t :: 0 <= t < |tcb| && t !in ex && tcb[t].tstat.Waiting? && tcb[t].tstat.on.Wobj? ==>
          tcb[t].tstat.on.q < |wq| && t in wq[tcb[t].tstat.on.q])
  }

  /** The wait queues of objects that ask for it are in priority order. */
  ghost predicate OrderOk(tcb: seq<Tcb>, wq: seq<seq<Tid>>, inib: seq<Inib>) {
    forall q :: 0 <= q < |wq| && q < |inib| && ByPriority(inib[q]) ==> Sorted(tcb, wq[q])
  }

  /** A task has an event block in the event heap exactly while in a timed wait. */
  ghost predicate EvtOk(tcb: seq<Tcb>, evts: set<Tid>, ex: set<Tid>) {
    && (forall t :: t in evts ==> t < |tcb| && t !in ex && tcb[t].tstat.Waiting? && tcb[t].tmo)
    && (forall t :: 0 <= t < |tcb| && t !in ex && tcb[t].tstat.Waiting? && tcb[t].tmo ==> t in evts)
  }

  ghost predicate Links(s: State, ex: set<Tid>) {
    && Shape(s)
    && ReadyOk(s.tcb, s.ready, ex)
    && WaitOk(s.tcb, s.wq, ex)
    && OrderOk(s.tcb, s.wq, s.inib)
    && EvtOk(s.tcb, s.evts, ex)
  }

  ghost predicate FreeOk(s: State) {
    && NoDup(s.freeTcb)
    && (forall t :: t in s.freeTcb ==> t < |s.tcb| && !s.tcb[t].exs)
    && (forall t :: 0 <= t < |s.tcb| && !s.tcb[t].exs ==> t in s.freeTcb && s.tcb[t].tstat.Dormant?)
  }

  // ---- mutexes --------------------------------------------------------------------

  /** The mutex list of each task and the owner field of each mutex mirror each
      other, except for the mutexes mx whose owner is being changed. */
  ghost predicate OwnOk(s: State, mx: set<nat>) {
    && Shape(s)
    && (forall t, m {:trigger m in s.tcb[t].held} :: 0 <= t < |s.tcb| && m in s.tcb[t].held ==>
          IsMtx(s, m) && m !in mx && s.objs[m].loctsk == Some(t))
    && (forall t :: 0 <= t < |s.tcb| ==> NoDup(s.tcb[t].held))
    && (forall m :: 0 <= m < |s.inib| && IsMtx(s, m) && m !in mx && s.objs[m].loctsk.Some? ==>
          s.objs[m].loctsk.value < |s.tcb| && m in s.tcb[s.objs[m].loctsk.value].held)
  }

  /** Current priority is the base priority raised by the ceilings held; no ceiling
      held or awaited is below the base priority; a dormant task holds nothing. */
  ghost predicate PriOk(s: State, ex: set<Tid>) {
    && (forall t :: 0 <= t < |s.tcb| && t !in ex ==>
          s.tcb[t].pri == CalcPri(s.inib, s.tcb[t].bpri, s.tcb[t].held))
    && (forall t, m {:trigger m in s.tcb[t].held} :: 0 <= t < |s.tcb| && m in s.tcb[t].held ==> CeilOk(s.inib, s.tcb[t].bpri, m))
    && (forall t :: 0 <= t < |s.tcb| && t !in ex && s.tcb[t].tstat.Waiting? && s.tcb[t].tstat.on.Wobj? ==>
          CeilOk(s.inib, s.tcb[t].bpri, s.tcb[t].tstat.on.q))
    && (forall t :: 0 <= t < |s.tcb| && t !in ex && s.tcb[t].tstat.Dormant? ==> s.tcb[t].held == [])
  }

  ghost predicate MtxOk(s: State, ex: set<Tid>, mx: set<nat>) {
    OwnOk(s, mx) && PriOk(s, ex)
  }

  // ---- objects: nobody waits for what is there --------------------------------------

  /** Every block number is exactly one of: on the free list, never used, allocated. */
  ghost predicate PoolOk(p: Pool, blkcnt: nat) {
    && NoDup(p.free)
    && p.unused <= blkcnt
    && p.fblkcnt == |p.free| + (blkcnt - p.unused)
    && (forall b :: b in p.alloc ==> b < p.unused)
    && (forall b :: b in p.free ==> b < p.unused)
    && (forall b :: 0 <= b < p.unused ==> (b in p.alloc <==> b !in p.free))
  }

  ghost predicate ItemsSorted(items: seq<Item>) {
    forall i, j :: 0 <= i < j < |items| ==> items[i].pri <= items[j].pri
  }

  ghost predicate FlgFalse(s: State, o: nat, ts: seq<Tid>)
    requires Shape(s) && IsFlg(s, o)
  {
    forall t :: t in ts ==> t < |s.tcb| && !FlgCond(s.objs[o].ptn, s.tcb[t].waiptn, s.tcb[t].orw)
  }

  ghost predicate ObjOk(s: State, o: nat)
    requires Shape(s) && o < |s.inib|
  {
    && (!IsDtq(s, o) ==> s.wq[RcvQ(s, o)] == [])
    && match s.inib[o] {
         case SemInib(_, isemcnt, maxsem) =>
           && isemcnt <= maxsem
           && s.objs[o].semcnt <= maxsem
           && (s.wq[o] != [] ==> s.objs[o].semcnt == 0)
         case FlgInib(_, _, _, wmul) =>
           && FlgFalse(s, o, s.wq[o])
           && (!wmul ==> |s.wq[o]| <= 1)
         case MtxInib(_) =>
           s.wq[o] != [] ==> s.objs[o].loctsk.Some?
         case DtqInib(_, dtqcnt, prio, _) =>
           && |s.objs[o].items| <= dtqcnt
           && (prio ==> ItemsSorted(s.objs[o].items))
           && (s.wq[o] != [] ==> |s.objs[o].items| == dtqcnt && s.wq[RcvQ(s, o)] == [])
           && (s.wq[RcvQ(s, o)] != [] ==> s.objs[o].items == [])
         case MpfInib(_, blkcnt) =>
           && PoolOk(s.objs[o].pool, blkcnt)
           && (s.wq[o] != [] ==> s.objs[o].pool.fblkcnt == 0)
       }
  }

  ghost predicate ObjsOk(s: State) {
    Shape(s) && forall o :: 0 <= o < |s.inib| ==> ObjOk(s, o)
  }

  // ---- dispatching --------------------------------------------------------------------

  ghost predicate FlagsOk(s: State) {
    s.dspflg == (s.ipmflg && !s.disdsp)
  }

  /** The running task is runnable, and outside handlers it is the task to run
      whenever dispatching is not pending. */
  ghost predicate RunOk(s: State) {
    && (s.run.Some? ==> s.run.value < |s.tcb| && s.tcb[s.run.value].tstat.Runnable?)
    && (!s.intctx && s.dspflg ==> s.run == Sched(s))
  }

  ghost predicate Core(s: State) {
    Links(s, {}) && FreeOk(s) && MtxOk(s, {}, {}) && ObjsOk(s) && FlagsOk(s)
  }

  ghost predicate Inv(s: State) {
    Core(s) && RunOk(s)
  }

  // ---- leaving a queue: t becomes a task in transit -------------------------------------

  lemma LeaveReady(s: State, t: Tid, ex: set<Tid>)
    requires Links(s, ex) && t < |s.tcb| && t !in ex && s.tcb[t].tstat.Runnable?
    ensures Links(MakeNonRunnable(s, t), ex + {t})
  {
    RemoveSpec(s.ready[s.tcb[t].pri], t);
    assert ReadyOk(s.tcb, MakeNonRunnable(s, t).ready, ex + {t});
  }

  lemma {:induction false} RemoveSorted(tcb: seq<Tcb>, q: seq<Tid>, t: Tid)
    requires Sorted(tcb, q)
    ensures Sorted(tcb, Remove(q, t))
    ensures forall u :: u in Remove(q, t) ==> u in q
  {
    if q != [] && q[0] != t {
      RemoveSorted(tcb, q[1..], t);
      var r := Remove(q[1..], t);
      assert Remove(q, t) == [q[0]] + r;
      forall i | 0 <= i < |r| ensures r[i] < |tcb| && tcb[q[0]].pri <= tcb[r[i]].pri {
        assert r[i] in q[1..];
      }
    }
  }

  lemma LeaveWait(s: State, t: Tid, ex: set<Tid>)
    requires Links(s, ex) && t < |s.tcb| && t !in ex && s.tcb[t].tstat.Waiting?
    ensures Links(LeaveWaiting(s, t), ex + {t})
  {
    var on := s.tcb[t].tstat.on;
    var s1 := LeaveWaiting(s, t);
    if on.Wobj? {
      RemoveSpec(s.wq[on.q], t);
      LeaveWaitQueue(s.tcb, s.wq, s1.wq[on.q], t, on.q, ex);
      if TpriQueue(s, on.q) {
        RemoveSorted(s.tcb, s.wq[on.q], t);
      }
    } else {
      assert WaitOk(s1.tcb, s1.wq, ex + {t});
    }
    assert OrderOk(s1.tcb, s1.wq, s1.inib);
    assert EvtOk(s1.tcb, s1.evts, ex + {t});
    assert ReadyOk(s1.tcb, s1.ready, ex + {t});
  }

  lemma LeaveWaitQueue(tcb: seq<Tcb>, wq: seq<seq<Tid>>, q1: seq<Tid>, t: Tid, q: nat, ex: set<Tid>)
    requires WaitOk(tcb, wq, ex) && t < |tcb| && q < |wq| && WaitsOn(tcb[t], q)
    requires NoDup(q1) && forall u :: u in q1 <==> u in wq[q] && u != t
    ensures WaitOk(tcb, wq[q := q1], ex + {t})
  {
  }

  lemma LeaveIdle(s: State, t: Tid, ex: set<Tid>)
    requires Links(s, ex) && t < |s.tcb| && t !in ex
    requires s.tcb[t].tstat.Dormant? || s.tcb[t].tstat.Suspended?
    ensures Links(s, ex + {t})
  {
  }

  // ---- entering the place the new state demands -------------------------------------------

  lemma SortedFrame(tcb: seq<Tcb>, tcb1: seq<Tcb>, q: seq<Tid>)
    requires Sorted(tcb, q) && |tcb1| == |tcb|
    requires forall t :: t in q && t < |tcb| ==> tcb1[t].pri == tcb[t].pri
    ensures Sorted(tcb1, q)
  {
    forall i | 0 <= i < |q| ensures tcb1[q[i]].pri == tcb[q[i]].pri {
      assert q[i] in q;
    }
  }

  /** Rewriting fields the queues do not depend on. */
  lemma SameLinks(s: State, tcb1: seq<Tcb>, ex: set<Tid>)
    requires Links(s, ex) && |tcb1| == |s.tcb|
    requires forall t :: 0 <= t < |tcb1| && t !in ex ==>
      tcb1[t].tstat == s.tcb[t].tstat && tcb1[t].pri == s.tcb[t].pri && tcb1[t].tmo == s.tcb[t].tmo
    ensures Links(s.(tcb := tcb1), ex)
  {
    forall q | 0 <= q < |s.wq| && q < |s.inib| && ByPriority(s.inib[q]) ensures Sorted(tcb1, s.wq[q]) {
      SortedFrame(s.tcb, tcb1, s.wq[q]);
    }
    assert ReadyOk(tcb1, s.ready, ex);
    assert WaitOk(tcb1, s.wq, ex);
    assert EvtOk(tcb1, s.evts, ex);
  }

  lemma EnterReady(s: State, t: Tid, ex: set<Tid>)
    requires Links(s, ex) && t < |s.tcb| && t in ex
    ensures Links(MakeActive(s, t), ex - {t})
  {
    var tcb1 := s.tcb[t := s.tcb[t].(tstat := Runnable)];
    SameLinks(s, tcb1, ex);
    EnterReadyLast(s.(tcb := tcb1), t, ex);
  }

  lemma EnterReadyLast(s: State, t: Tid, ex: set<Tid>)
    requires Links(s, ex) && t < |s.tcb| && t in ex && s.tcb[t].tstat.Runnable?
    ensures Links(s.(ready := s.ready[s.tcb[t].pri := s.ready[s.tcb[t].pri] + [t]]), ex - {t})
  {
    SnocNoDup(s.ready[s.tcb[t].pri], t);
    EnterQueue(s.tcb, s.ready, s.ready[s.tcb[t].pri] + [t], t, ex);
    StillOut(s.tcb, s.wq, s.evts, t, ex);
  }

  lemma EnterQueue(tcb: seq<Tcb>, ready: seq<seq<Tid>>, q1: seq<Tid>, t: Tid, ex: set<Tid>)
    requires ReadyOk(tcb, ready, ex) && t < |tcb| && t in ex && tcb[t].tstat.Runnable?
    requires NoDup(q1) && forall u :: u in q1 <==> u in ready[tcb[t].pri] || u == t
    ensures ReadyOk(tcb, ready[tcb[t].pri := q1], ex - {t})
  {
  }

  /** A task in transit that stops waiting is in no wait queue. */
  lemma StillOut(tcb: seq<Tcb>, wq: seq<seq<Tid>>, evts: set<Tid>, t: Tid, ex: set<Tid>)
    requires WaitOk(tcb, wq, ex) && EvtOk(tcb, evts, ex) && t < |tcb| && !tcb[t].tstat.Waiting?
    ensures WaitOk(tcb, wq, ex - {t}) && EvtOk(tcb, evts, ex - {t})
  {
  }

  lemma EnterIdle(s: State, t: Tid, ex: set<Tid>)
    requires Links(s, ex) && t < |s.tcb| && t in ex
    requires s.tcb[t].tstat.Dormant? || s.tcb[t].tstat.Suspended?
    ensures Links(s, ex - {t})
  {
  }

  /** Where queue_insert_tpri stops: the first entry of lower urgency. */
  function TpriPos(q: seq<Tid>, pri: Pri, tcb: seq<Tcb>): (k: nat)
    ensures k <= |q|
  {
    if q == [] || (q[0] < |tcb| && pri < tcb[q[0]].pri) then 0 else 1 + TpriPos(q[1..], pri, tcb)
  }

  lemma {:induction false} InsertTpriSplit(q: seq<Tid>, t: Tid, pri: Pri, tcb: seq<Tcb>)
    ensures var k := TpriPos(q, pri, tcb); InsertTpri(q, t, pri, tcb) == q[..k] + [t] + q[k..]
  {
    if q == [] || (q[0] < |tcb| && pri < tcb[q[0]].pri) {
      assert q[..0] + [t] + q[0..] == [t] + q;
    } else {
      InsertTpriSplit(q[1..], t, pri, tcb);
      ConsSplit(q[0], q[1..], TpriPos(q[1..], pri, tcb), t);
      assert q == [q[0]] + q[1..];
    }
  }

  lemma {:induction false} TpriPosSpec(q: seq<Tid>, pri: Pri, tcb: seq<Tcb>)
    requires Sorted(tcb, q)
    ensures forall i :: 0 <= i < TpriPos(q, pri, tcb) ==> tcb[q[i]].pri <= pri
    ensures forall i :: TpriPos(q, pri, tcb) <= i < |q| ==> pri < tcb[q[i]].pri
  {
    if q != [] && pri >= tcb[q[0]].pri {
      var r := q[1..];
      TpriPosSpec(r, pri, tcb);
      forall i | 1 <= i < |q|
        ensures i < TpriPos(q, pri, tcb) ==> tcb[q[i]].pri <= pri
        ensures i >= TpriPos(q, pri, tcb) ==> pri < tcb[q[i]].pri
      {
        assert q[i] == r[i - 1];
      }
    }
  }

  /** queue_insert_tpri keeps the queue in priority order and puts the task after
      every waiting task of its own priority. */
  lemma InsertTpriSpec(q: seq<Tid>, t: Tid, pri: Pri, tcb: seq<Tcb>) returns (k: nat)
    requires Sorted(tcb, q) && t < |tcb| && tcb[t].pri == pri
    ensures k <= |q| && InsertTpri(q, t, pri, tcb) == q[..k] + [t] + q[k..]
    ensures forall i :: 0 <= i < k ==> tcb[q[i]].pri <= pri
    ensures forall i :: k <= i < |q| ==> pri < tcb[q[i]].pri
    ensures Sorted(tcb, InsertTpri(q, t, pri, tcb))
  {
    k := TpriPos(q, pri, tcb);
    InsertTpriSplit(q, t, pri, tcb);
    TpriPosSpec(q, pri, tcb);
  }

  lemma InsertAt(q: seq<Tid>, k: nat, t: Tid)
    requires NoDup(q) && t !in q && k <= |q|
    ensures NoDup(q[..k] + [t] + q[k..])
    ensures forall u :: u in q[..k] + [t] + q[k..] <==> u in q || u == t
  {
    assert q == q[..k] + q[k..];
  }

  lemma EnterWait(s: State, t: Tid, q: nat, ex: set<Tid>)
    requires Links(s, ex + {t}) && t < |s.tcb| && t !in ex && q < |s.wq|
    requires WaitsOn(s.tcb[t], q)
    ensures Links(Enqueue(s, q, t).(evts := if s.tcb[t].tmo then s.evts + {t} else s.evts), ex)
  {
    var s1 := Enqueue(s, q, t);
    var q1 := s1.wq[q];
    if TpriQueue(s, q) {
      var k := InsertTpriSpec(s.wq[q], t, s.tcb[t].pri, s.tcb);
      InsertAt(s.wq[q], k, t);
    } else {
      SnocNoDup(s.wq[q], t);
    }
    EnterWaitQueue(s.tcb, s.wq, q1, t, q, ex);
    assert OrderOk(s1.tcb, s1.wq, s1.inib);
  }

  lemma EnterWaitQueue(tcb: seq<Tcb>, wq: seq<seq<Tid>>, q1: seq<Tid>, t: Tid, q: nat, ex: set<Tid>)
    requires WaitOk(tcb, wq, ex + {t}) && t < |tcb| && t !in ex && q < |wq| && WaitsOn(tcb[t], q)
    requires NoDup(q1) && forall u :: u in q1 <==> u in wq[q] || u == t
    ensures WaitOk(tcb, wq[q := q1], ex)
  {
  }
}
