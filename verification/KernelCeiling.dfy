/** The immediate ceiling protocol: over whole runs with fixed base priorities, with
    dispatching enabled and with no holder of a ceiling mutex waiting or suspended, a
    task that may lock a ceiling mutex never finds it locked by another task.

    The reason is an order: every holder of a ceiling mutex stays ahead, in the ready
    order, of every task whose base priority lets it lock that mutex. */
module KernelCeiling {
  import opened Lists
  import opened KernelSpec
  import opened KernelInv
  import opened KernelKeeps
  import opened KernelMutex
  import opened KernelSteps
  import opened KernelSync

  // ---- the ready order ----------------------------------------------------------

  ghost predicate Queued(tcb: seq<Tcb>, ready: seq<seq<Tid>>, t: nat) {
    |ready| == 16 && t < |tcb| && t in ready[tcb[t].pri]
  }

  /** a comes before b in the order in which the dispatcher takes tasks. */
  ghost predicate Ahead(tcb: seq<Tcb>, ready: seq<seq<Tid>>, a: Tid, b: Tid)
    requires |ready| == 16 && a < |tcb| && b < |tcb|
  {
    tcb[a].pri < tcb[b].pri || (tcb[a].pri == tcb[b].pri && Before(ready[tcb[a].pri], a, b))
  }

  /** Every queued holder of a ceiling mutex is ahead of every other queued task that
      may lock the mutex. */
  ghost predicate HoldersAhead(inib: seq<Inib>, tcb: seq<Tcb>, ready: seq<seq<Tid>>) {
    forall h: nat, t: nat, m: nat {:trigger Queued(tcb, ready, h), Queued(tcb, ready, t), IsCeil(inib, m)} ::
      Queued(tcb, ready, h) && Queued(tcb, ready, t) && h != t
      && IsCeil(inib, m) && m in tcb[h].held && Ceil(inib, m) <= tcb[t].bpri
      ==> Ahead(tcb, ready, h, t)
  }

  ghost predicate NoCeilWait(s: State) {
    Shape(s) && forall m :: 0 <= m < |s.inib| && IsCeil(s.inib, m) ==> s.wq[m] == []
  }

  ghost predicate HoldsNone(inib: seq<Inib>, held: seq<nat>) {
    forall m :: m in held ==> !IsCeil(inib, m)
  }

  /** No task holds a ceiling mutex while it waits or is suspended. */
  ghost predicate IdleFree(s: State, ex: set<Tid>) {
    forall t :: 0 <= t < |s.tcb| && t !in ex && !s.tcb[t].tstat.Runnable? ==> HoldsNone(s.inib, s.tcb[t].held)
  }

  /** The part of a call in progress that concerns ceilings. */
  ghost predicate Safe(s: State, ex: set<Tid>) {
    HoldersAhead(s.inib, s.tcb, s.ready) && NoCeilWait(s) && IdleFree(s, ex)
  }

  lemma AheadOnce(tcb: seq<Tcb>, ready: seq<seq<Tid>>, a: Tid, b: Tid)
    requires |ready| == 16 && (forall p :: 0 <= p < 16 ==> NoDup(ready[p]))
    requires Queued(tcb, ready, a) && Queued(tcb, ready, b) && a != b
    ensures Ahead(tcb, ready, a, b) <==> !Ahead(tcb, ready, b, a)
  {
    if tcb[a].pri == tcb[b].pri {
      BeforeTotal(ready[tcb[a].pri], a, b);
    }
  }

  /** The first task of the order is ahead of every other. */
  lemma FirstAhead(tcb: seq<Tcb>, ready: seq<seq<Tid>>, r: Tid, t: Tid, ex: set<Tid>)
    requires ReadyOk(tcb, ready, ex) && Top(ready) == Some(r) && Queued(tcb, ready, t) && t != r
    ensures r < |tcb| && Queued(tcb, ready, r) && Ahead(tcb, ready, r, t)
  {
    var p := TopFromInv(ready, 0);
    var q := ready[p];
    assert q[0] in q;
    var pt := tcb[t].pri;
    if pt == p {
      var j :| 0 <= j < |q| && q[j] == t;
      assert q[0] == r && q[j] == t && 0 < j;
    }
  }

  lemma QueuedIff(tcb: seq<Tcb>, ready: seq<seq<Tid>>, ex: set<Tid>)
    requires ReadyOk(tcb, ready, ex)
    ensures forall t: nat :: Queued(tcb, ready, t) ==> t < |tcb| && t !in ex && tcb[t].tstat.Runnable?
    ensures forall t: nat :: t < |tcb| && t !in ex && tcb[t].tstat.Runnable? ==> Queued(tcb, ready, t)
  {
  }

  // ---- what changes to the ready queues do to the order -----------------------------

  /** Tasks leave the queues, or change in ways the order does not see. */
  lemma FewerQueued(inib: seq<Inib>, tcb: seq<Tcb>, tcb1: seq<Tcb>, ready: seq<seq<Tid>>, ready1: seq<seq<Tid>>)
    requires HoldersAhead(inib, tcb, ready)
    requires forall t: nat :: Queued(tcb1, ready1, t) ==>
      && Queued(tcb, ready, t) && tcb1[t].pri == tcb[t].pri && tcb1[t].bpri == tcb[t].bpri
      && forall m :: m in tcb1[t].held ==> m in tcb[t].held
    requires |ready| == 16 && |ready1| == 16
    requires forall a: nat, b: nat ::
      (Queued(tcb1, ready1, a) && Queued(tcb1, ready1, b) && tcb1[a].pri == tcb1[b].pri
       && Before(ready[tcb1[a].pri], a, b)) ==> Before(ready1[tcb1[a].pri], a, b)
    ensures HoldersAhead(inib, tcb1, ready1)
  {
    forall h: nat, t: nat, m: nat | Queued(tcb1, ready1, h) && Queued(tcb1, ready1, t) && h != t
      && IsCeil(inib, m) && m in tcb1[h].held && Ceil(inib, m) <= tcb1[t].bpri
      ensures Ahead(tcb1, ready1, h, t)
    {
      assert Ahead(tcb, ready, h, t);
    }
  }

  /** The queues stay and no task gains a ceiling or changes its priorities. */
  lemma SameQueues(inib: seq<Inib>, tcb: seq<Tcb>, tcb1: seq<Tcb>, ready: seq<seq<Tid>>, ex: set<Tid>)
    requires HoldersAhead(inib, tcb, ready) && ReadyOk(tcb, ready, ex) && |tcb1| == |tcb|
    requires forall t :: 0 <= t < |tcb| && t !in ex && tcb[t].tstat.Runnable? ==>
      && tcb1[t].pri == tcb[t].pri && tcb1[t].bpri == tcb[t].bpri
      && forall m :: m in tcb1[t].held ==> m in tcb[t].held
    ensures HoldersAhead(inib, tcb1, ready)
  {
    forall t: nat | Queued(tcb1, ready, t)
      ensures Queued(tcb, ready, t) && tcb1[t].pri == tcb[t].pri && tcb1[t].bpri == tcb[t].bpri
      ensures forall m :: m in tcb1[t].held ==> m in tcb[t].held
    {
      assert t in ready[tcb1[t].pri];
    }
    FewerQueued(inib, tcb, tcb1, ready, ready);
  }

  lemma LeaveOrder(inib: seq<Inib>, tcb: seq<Tcb>, ready: seq<seq<Tid>>, t: Tid, ex: set<Tid>)
    requires HoldersAhead(inib, tcb, ready) && ReadyOk(tcb, ready, ex) && t < |tcb|
    ensures HoldersAhead(inib, tcb, ready[tcb[t].pri := Remove(ready[tcb[t].pri], t)])
  {
    var p := tcb[t].pri;
    var ready1 := ready[p := Remove(ready[p], t)];
    RemoveSpec(ready[p], t);
    forall a: nat, b: nat | Queued(tcb, ready1, a) && Queued(tcb, ready1, b) && tcb[a].pri == tcb[b].pri
      && Before(ready[tcb[a].pri], a, b)
      ensures Before(ready1[tcb[a].pri], a, b)
    {
      if tcb[a].pri == p {
        RemoveBefore(ready[p], t, a, b);
      }
    }
    FewerQueued(inib, tcb, tcb, ready, ready1);
  }

  /** No held ceiling is above the current priority of its holder. */
  ghost predicate Bounded(inib: seq<Inib>, tcb: seq<Tcb>, ready: seq<seq<Tid>>) {
    forall h: nat :: Queued(tcb, ready, h) ==> IsRaised(inib, tcb[h].bpri, tcb[h].held, tcb[h].pri)
  }

  lemma PriBounded(s: State, ex: set<Tid>)
    requires ReadyOk(s.tcb, s.ready, ex) && PriOk(s, ex)
    ensures Bounded(s.inib, s.tcb, s.ready)
  {
    forall h: nat | Queued(s.tcb, s.ready, h)
      ensures IsRaised(s.inib, s.tcb[h].bpri, s.tcb[h].held, s.tcb[h].pri)
    {
      assert h in s.ready[s.tcb[h].pri];
      CalcPriSpec(s.inib, s.tcb[h].bpri, s.tcb[h].held);
    }
  }

  /** A task without ceilings, at its base priority, joins at the tail of its queue. */
  lemma JoinOrder(inib: seq<Inib>, tcb: seq<Tcb>, ready: seq<seq<Tid>>, t: Tid, v: Tcb, ex: set<Tid>)
    requires HoldersAhead(inib, tcb, ready) && Bounded(inib, tcb, ready) && ReadyOk(tcb, ready, ex)
    requires t < |tcb| && !Queued(tcb, ready, t) && HoldsNone(inib, v.held) && v.pri == v.bpri
    ensures HoldersAhead(inib, tcb[t := v], ready[v.pri := ready[v.pri] + [t]])
  {
    var tcb1 := tcb[t := v];
    var ready1 := ready[v.pri := ready[v.pri] + [t]];
    forall u: nat ensures Queued(tcb1, ready1, u) ==> u == t || (Queued(tcb, ready, u) && tcb1[u] == tcb[u]) {
    }
    forall h: nat, u: nat, m: nat | Queued(tcb1, ready1, h) && Queued(tcb1, ready1, u) && h != u
      && IsCeil(inib, m) && m in tcb1[h].held && Ceil(inib, m) <= tcb1[u].bpri
      ensures Ahead(tcb1, ready1, h, u)
    {
      assert h != t;
      if u == t {
        assert IsRaised(inib, tcb[h].bpri, tcb[h].held, tcb[h].pri);
        SnocBefore(ready[v.pri], t, h, t);
      } else {
        assert Ahead(tcb, ready, h, u);
        SnocBefore(ready[v.pri], t, h, u);
      }
    }
  }

  /** The first task takes one more mutex, raised to the front of its new queue or
      staying where it is. */
  lemma RaiseOrder(inib: seq<Inib>, tcb: seq<Tcb>, ready: seq<seq<Tid>>, r: Tid, v: Tcb)
    requires HoldersAhead(inib, tcb, ready) && ReadyOk(tcb, ready, {}) && Top(ready) == Some(r) && r < |tcb|
    requires v.pri < tcb[r].pri && v.bpri == tcb[r].bpri
    ensures var r0 := ready[tcb[r].pri := Remove(ready[tcb[r].pri], r)];
      HoldersAhead(inib, tcb[r := v], r0[v.pri := [r] + r0[v.pri]])
  {
    var p := tcb[r].pri;
    var r0 := ready[p := Remove(ready[p], r)];
    var tcb1 := tcb[r := v];
    var ready1 := r0[v.pri := [r] + r0[v.pri]];
    FirstPri(tcb, ready, r);
    forall h: nat, u: nat, m: nat | Queued(tcb1, ready1, h) && Queued(tcb1, ready1, u) && h != u
      && IsCeil(inib, m) && m in tcb1[h].held && Ceil(inib, m) <= tcb1[u].bpri
      ensures Ahead(tcb1, ready1, h, u)
    {
      RemoveSpec(ready[p], r);
      if h == r {
        assert Queued(tcb, ready, u);
      } else if u == r {
        assert Queued(tcb, ready, h);
        assert Queued(tcb, ready, r);
        FirstAhead(tcb, ready, r, h, {});
        AheadOnce(tcb, ready, r, h);
        assert false;
      } else {
        assert Queued(tcb, ready, h) && Queued(tcb, ready, u);
        assert Ahead(tcb, ready, h, u);
        if tcb[h].pri == p {
          RemoveBefore(ready[p], r, h, u);
        }
        ConsBefore(r, r0[v.pri], h, u);
      }
    }
  }

  lemma FirstPri(tcb: seq<Tcb>, ready: seq<seq<Tid>>, r: Tid)
    requires ReadyOk(tcb, ready, {}) && Top(ready) == Some(r)
    ensures r < |tcb| && Queued(tcb, ready, r)
    ensures forall t: nat :: Queued(tcb, ready, t) ==> tcb[r].pri <= tcb[t].pri
  {
    var p := TopFromInv(ready, 0);
    assert ready[p][0] in ready[p];
  }

  /** A holder that gives up ceilings and drops to the front of the queue of its new
      priority stays ahead of everyone it must be ahead of: whoever may lock what it
      still holds is itself below it. */
  lemma DropOrder(inib: seq<Inib>, tcb: seq<Tcb>, ready: seq<seq<Tid>>, h: Tid, v: Tcb)
    requires HoldersAhead(inib, tcb, ready) && Bounded(inib, tcb, ready) && ReadyOk(tcb, ready, {})
    requires Queued(tcb, ready, h) && tcb[h].pri < v.pri && v.bpri == tcb[h].bpri
    requires IsRaised(inib, v.bpri, v.held, v.pri)
    requires forall m :: m in v.held ==> m in tcb[h].held
    ensures var r0 := ready[tcb[h].pri := Remove(ready[tcb[h].pri], h)];
      HoldersAhead(inib, tcb[h := v], r0[v.pri := [h] + r0[v.pri]])
  {
    var p := tcb[h].pri;
    var r0 := ready[p := Remove(ready[p], h)];
    var tcb1 := tcb[h := v];
    var ready1 := r0[v.pri := [h] + r0[v.pri]];
    RemoveSpec(ready[p], h);
    forall g: nat, u: nat, m: nat | Queued(tcb1, ready1, g) && Queued(tcb1, ready1, u) && g != u
      && IsCeil(inib, m) && m in tcb1[g].held && Ceil(inib, m) <= tcb1[u].bpri
      ensures Ahead(tcb1, ready1, g, u)
    {
      if g != h {
        assert Queued(tcb, ready, g);
      }
      if u != h {
        assert Queued(tcb, ready, u);
      }
      assert Ahead(tcb, ready, g, u);
      if g == h {
        StillBelow(inib, tcb, ready, h, v, u, m);
        ConsBefore(h, r0[v.pri], h, u);
      } else if u != h {
        if tcb[g].pri == p {
          RemoveBefore(ready[p], h, g, u);
        }
        ConsBefore(h, r0[v.pri], g, u);
      }
    }
  }

  lemma StillBelow(inib: seq<Inib>, tcb: seq<Tcb>, ready: seq<seq<Tid>>, h: Tid, v: Tcb, u: Tid, m: nat)
    requires HoldersAhead(inib, tcb, ready) && Bounded(inib, tcb, ready) && ReadyOk(tcb, ready, {})
    requires Queued(tcb, ready, h) && Queued(tcb, ready, u) && h != u && Ahead(tcb, ready, h, u)
    requires v.bpri == tcb[h].bpri && IsRaised(inib, v.bpri, v.held, v.pri)
    requires IsCeil(inib, m) && m in v.held && Ceil(inib, m) <= tcb[u].bpri
    ensures v.pri <= tcb[u].pri
  {
    assert IsRaised(inib, tcb[u].bpri, tcb[u].held, tcb[u].pri);
    if tcb[u].pri != tcb[u].bpri {
      var m2 :| m2 in tcb[u].held && IsCeil(inib, m2) && Ceil(inib, m2) == tcb[u].pri;
      AheadOnce(tcb, ready, h, u);
      assert !(Ceil(inib, m2) <= tcb[h].bpri);
    }
  }

  /** The first task takes one more mutex without moving. */
  lemma StayOrder(inib: seq<Inib>, tcb: seq<Tcb>, ready: seq<seq<Tid>>, r: Tid, v: Tcb)
    requires HoldersAhead(inib, tcb, ready) && ReadyOk(tcb, ready, {}) && Top(ready) == Some(r) && r < |tcb|
    requires v.pri == tcb[r].pri && v.bpri == tcb[r].bpri
    ensures HoldersAhead(inib, tcb[r := v], ready)
  {
    var tcb1 := tcb[r := v];
    forall h: nat, u: nat, m: nat | Queued(tcb1, ready, h) && Queued(tcb1, ready, u) && h != u
      && IsCeil(inib, m) && m in tcb1[h].held && Ceil(inib, m) <= tcb1[u].bpri
      ensures Ahead(tcb1, ready, h, u)
    {
      assert Queued(tcb, ready, h) && Queued(tcb, ready, u);
      if h == r {
        FirstAhead(tcb, ready, r, u, {});
      } else {
        assert Ahead(tcb, ready, h, u);
      }
    }
  }

  // ---- the pieces of the calls -------------------------------------------------------

  /** Fields the order does not see. */
  lemma FieldSafe(s: State, s1: State, ex: set<Tid>)
    requires Links(s, ex) && Safe(s, ex) && Keeps(s, s1) && s1.ready == s.ready
    requires forall q :: 0 <= q < |s.wq| ==> |s1.wq[q]| <= |s.wq[q]|
    requires forall t :: 0 <= t < |s.tcb| ==>
      s1.tcb[t].pri == s.tcb[t].pri && s1.tcb[t].bpri == s.tcb[t].bpri && s1.tcb[t].held == s.tcb[t].held
      && (t !in ex ==> s1.tcb[t].tstat.Runnable? == s.tcb[t].tstat.Runnable?)
    ensures Safe(s1, ex)
  {
    SameQueues(s.inib, s.tcb, s1.tcb, s.ready, ex);
  }

  lemma WakeSafe(s: State, t: Tid, er: Er, ex: set<Tid>, mx: set<nat>)
    requires Good(s, ex, mx) && Safe(s, ex) && t < |s.tcb| && t !in ex && s.tcb[t].tstat.Waiting?
    ensures Safe(Wake(s, t, er), ex)
  {
    hide Wake;
    var v := Woken(s.tcb[t], er);
    WakeEffect(s, t, er, ex);
    var s1 := Wake(s, t, er);
    CalcNone(s.inib, v.bpri, v.held);
    PriBounded(s, ex);
    if v.tstat.Suspended? {
      SameQueues(s.inib, s.tcb, s1.tcb, s.ready, ex);
    } else {
      JoinOrder(s.inib, s.tcb, s.ready, t, v, ex);
    }
    assert NoCeilWait(s1);
    assert IdleFree(s1, ex);
  }

  lemma WakeHeadSafe(s: State, q: nat)
    requires Core(s) && Safe(s, {}) && q < |s.wq| && s.wq[q] != []
    ensures Safe(WakeHead(s, q), {})
  {
    hide ReadyOk, OrderOk, EvtOk, OwnOk, PriOk, ObjOk, Safe;
    var t := s.wq[q][0];
    assert t in s.wq[q];
    WakeSafe(s, t, E_OK, {}, {});
  }

  lemma {:induction false} WakeAllSafe(s: State, ts: seq<Tid>)
    requires Good(s, {}, {}) && Safe(s, {}) && AllWaiting(s, ts, {})
    ensures Safe(WakeAll(s, ts), {})
    decreases |ts|
  {
    hide ReadyOk, WaitOk, OrderOk, EvtOk, OwnOk, PriOk, Safe, Wake;
    if ts != [] {
      var t := ts[0];
      assert t in ts;
      WakeGood(s, t, E_DLT, {}, {});
      WakeEffect(s, t, E_DLT, {});
      WakeSafe(s, t, E_DLT, {}, {});
      TailOf(ts);
      WakeAllSafe(Wake(s, t, E_DLT), ts[1..]);
    }
  }

  lemma QueueSafe(s: State, q: nat)
    requires Core(s) && Safe(s, {}) && q < |s.wq|
    ensures Safe(WakeAll(s, s.wq[q]), {})
  {
    hide ReadyOk, WaitOk, OrderOk, EvtOk, OwnOk, PriOk, Safe;
    QueueWaiting(s, q, {});
    WakeAllSafe(s, s.wq[q]);
  }

  lemma ActiveSafe(s: State, t: Tid)
    requires Core(s) && Safe(s, {}) && t < |s.tcb| && !s.tcb[t].tstat.Runnable?
    requires s.tcb[t].tstat.Dormant? || s.tcb[t].tstat.Suspended?
    ensures Safe(MakeActive(s, t), {})
  {
    var v := s.tcb[t].(tstat := Runnable);
    CalcNone(s.inib, v.bpri, v.held);
    PriBounded(s, {});
    JoinOrder(s.inib, s.tcb, s.ready, t, v, {});
  }

  lemma NobodySafe(s: State, m: nat, ex: set<Tid>)
    requires Safe(s, ex) && IsMtx(s, m)
    ensures Safe(SetOwner(s, m, None), ex)
  {
    hide MutexRelease, LeaveWaiting;
  }

  lemma ReleaseSafe(s: State, m: nat, ex: set<Tid>)
    requires Good(s, ex, {m}) && ObjsOk(s) && IsMtx(s, m) && Safe(s, ex)
    ensures Safe(MutexRelease(s, m), ex)
  {
    if s.wq[m] == [] {
      NobodySafe(s, m, ex);
    } else {
      assert !IsCeil(s.inib, m);
      var t := s.wq[m][0];
      assert t in s.wq[m];
      ReleaseForm(s, m);
      LeaveEffect(s, t);
      var v := Granted(s, m, s.tcb[t]);
      var s1 := MutexRelease(s, m);
      CalcNone(s.inib, v.bpri, s.tcb[t].held);
      PriBounded(s, ex);
      HoldsNoneSnoc(s.inib, s.tcb[t].held, m);
      if v.tstat.Suspended? {
        SameQueues(s.inib, s.tcb, s1.tcb, s.ready, ex);
      } else {
        JoinOrder(s.inib, s.tcb, s.ready, t, v, ex);
      }
      assert NoCeilWait(s1);
      assert IdleFree(s1, ex);
    }
  }

  lemma HoldsNoneSnoc(inib: seq<Inib>, held: seq<nat>, m: nat)
    requires HoldsNone(inib, held) && !IsCeil(inib, m)
    ensures HoldsNone(inib, held + [m])
  {
  }

  lemma PopSafe(s: State, t: Tid, ex: set<Tid>)
    requires Links(s, ex) && Safe(s, ex) && t < |s.tcb| && t in ex && s.tcb[t].held != []
    ensures Safe(SetHeld(s, t, s.tcb[t].held[1..]), ex)
  {
    SameQueues(s.inib, s.tcb, SetHeld(s, t, s.tcb[t].held[1..]).tcb, s.ready, ex);
  }

  lemma {:induction false} ReleaseAllSafe(s: State, t: Tid, ex: set<Tid>)
    requires Good(s, ex, {}) && ObjsOk(s) && t < |s.tcb| && t in ex && Safe(s, ex)
    ensures Safe(ReleaseAll(s, t, s.tcb[t].held), ex)
    decreases |s.tcb[t].held|
  {
    hide ReadyOk, WaitOk, OrderOk, EvtOk, OwnOk, PriOk, ObjOk, Safe, MutexRelease;
    if s.tcb[t].held != [] {
      var m := s.tcb[t].held[0];
      PopGood(s, t, ex);
      PopSafe(s, t, ex);
      var s1 := SetHeld(s, t, s.tcb[t].held[1..]);
      ReleaseGood(s1, m, ex);
      ReleaseSafe(s1, m, ex);
      ReleaseAllSafe(MutexRelease(s1, m), t, ex);
    }
  }

  lemma DetachSafe(s: State, t: Tid)
    requires Good(s, {}, {}) && Safe(s, {}) && t < |s.tcb|
    ensures Safe(Detach(s, t), {t})
  {
    if s.tcb[t].tstat.Runnable? {
      LeaveOrder(s.inib, s.tcb, s.ready, t, {});
    } else if s.tcb[t].tstat.Waiting? {
      LeaveEffect(s, t);
    }
  }

  lemma DormantSafe(s: State, t: Tid)
    requires Links(s, {t}) && Safe(s, {t}) && t < |s.tcb| && s.tcb[t].held == []
    ensures Safe(MakeDormant(s, t), {})
  {
    SameQueues(s.inib, s.tcb, MakeDormant(s, t).tcb, s.ready, {t});
  }

  lemma FinishSafe(s: State, t: Tid)
    requires Good(s, {t}, {}) && ObjsOk(s) && FlagsOk(s) && t < |s.tcb| && s.tcb[t].exs && Safe(s, {t})
    ensures Safe(Finish(s, t), {})
  {
    hide ReadyOk, WaitOk, OrderOk, EvtOk, OwnOk, PriOk, ObjOk, Safe, ReleaseAll;
    ReleaseAllGood(s, t, {t});
    ReleaseAllSafe(s, t, {t});
    var s1 := ReleaseAll(s, t, s.tcb[t].held);
    DormantGood(s1, t);
    DormantSafe(s1, t);
    var s2 := MakeDormant(s1, t);
    if s2.tcb[t].actque {
      FieldCore(s2, t, s2.tcb[t].(actque := false));
      var s3 := s2.(tcb := s2.tcb[t := s2.tcb[t].(actque := false)]);
      FieldSafe(s2, s3, {});
      ActiveSafe(s3, t);
    }
  }

  lemma UnholdSafe(s: State, t: Tid, m: nat)
    requires Core(s) && Safe(s, {}) && IsMtx(s, m) && s.objs[m].loctsk == Some(t)
    ensures t < |s.tcb| && Safe(Unhold(s, t, m), {})
  {
    hide WaitOk, OrderOk, EvtOk, PriOk, ObjOk, Unhold, HoldersAhead, CalcPri;
    assert m in s.tcb[t].held;
    PriIs(s, t);
    UnholdEffect(s, t, m, {});
    UnholdAhead(s, t, m);
    RemoveSpec(s.tcb[t].held, m);
    UnholdIdle(s, Unhold(s, t, m), t);
  }

  lemma PriIs(s: State, t: Tid)
    requires PriOk(s, {}) && t < |s.tcb|
    ensures s.tcb[t].pri == CalcPri(s.inib, s.tcb[t].bpri, s.tcb[t].held)
  {
  }

  lemma UnholdAhead(s: State, t: Tid, m: nat)
    requires Core(s) && Safe(s, {}) && IsMtx(s, m) && t < |s.tcb| && m in s.tcb[t].held
    ensures var s1 := Unhold(s, t, m); HoldersAhead(s1.inib, s1.tcb, s1.ready)
  {
    hide WaitOk, OrderOk, EvtOk, ObjOk, Unhold, HoldersAhead;
    UnholdEffect(s, t, m, {});
    var v := s.tcb[t];
    var s1 := Unhold(s, t, m);
    var v1 := s1.tcb[t];
    RemoveSpec(v.held, m);
    PriBounded(s, {});
    CalcPriSpec(s.inib, v1.bpri, v1.held);
    UnholdReady(s, t, m);
    if v1.pri != v.pri {
      assert Queued(s.tcb, s.ready, t);
      DropOrder(s.inib, s.tcb, s.ready, t, v1);
    } else {
      SameQueues(s.inib, s.tcb, s1.tcb, s.ready, {});
    }
  }

  lemma UnholdIdle(s: State, s1: State, t: Tid)
    requires Shape(s) && Keeps(s, s1) && NoCeilWait(s) && IdleFree(s, {}) && t < |s.tcb|
    requires forall u :: 0 <= u < |s.tcb| && u != t ==> s1.tcb[u] == s.tcb[u]
    requires s1.tcb[t].tstat == s.tcb[t].tstat && forall x :: x in s1.tcb[t].held ==> x in s.tcb[t].held
    requires forall q :: 0 <= q < |s.wq| ==> |s1.wq[q]| == |s.wq[q]|
    ensures NoCeilWait(s1) && IdleFree(s1, {})
  {
  }

  /** A drop in priority can only come from a ceiling, whose holder is queued. */
  lemma UnholdReady(s: State, t: Tid, m: nat)
    requires Core(s) && IdleFree(s, {}) && IsMtx(s, m) && t < |s.tcb| && m in s.tcb[t].held
    ensures var v := s.tcb[t]; var s1 := Unhold(s, t, m); var p := s1.tcb[t].pri;
      && (p == v.pri ==> s1.ready == s.ready)
      && (p != v.pri ==> v.pri < p && v.tstat.Runnable?)
      && (p != v.pri ==> var r0 := s.ready[v.pri := Remove(s.ready[v.pri], t)];
                         s1.ready == r0[p := [t] + r0[p]])
  {
    UnholdEffect(s, t, m, {});
    var v := s.tcb[t];
    var held := Remove(v.held, m);
    var s1 := SetHeld(s, t, held);
    var newpri := CalcPri(s.inib, v.bpri, held);
    RemoveSpec(v.held, m);
    CalcPriSpec(s.inib, v.bpri, v.held);
    CalcPriSpec(s.inib, v.bpri, held);
    ChangeForm(s1, t, newpri, true);
  }

  lemma AcquireSafe(s: State, r: Tid, m: nat)
    requires Core(s) && Safe(s, {}) && r < |s.tcb| && s.tcb[r].tstat.Runnable? && Sched(s) == Some(r)
    requires IsMtx(s, m) && s.objs[m].loctsk == None
    ensures HoldersAhead(s.inib, MutexAcquire(s, r, m).tcb, MutexAcquire(s, r, m).ready)
    ensures NoCeilWait(MutexAcquire(s, r, m))
  {
    hide MutexAcquire;
    AcquireLinks(s, r, m);
    var s2 := MutexAcquire(s, r, m);
    var v := s2.tcb[r];
    AcquireReady(s, r, m);
    if v.pri < s.tcb[r].pri {
      RaiseOrder(s.inib, s.tcb, s.ready, r, v);
    } else {
      StayOrder(s.inib, s.tcb, s.ready, r, v);
    }
  }

  lemma AcquireReady(s: State, r: Tid, m: nat)
    requires Core(s) && r < |s.tcb| && s.tcb[r].tstat.Runnable? && IsMtx(s, m)
    ensures var v := s.tcb[r]; var s1 := MutexAcquire(s, r, m); var p := s1.tcb[r].pri;
      && p <= v.pri
      && (p == v.pri ==> s1.ready == s.ready)
      && (p != v.pri ==> var r0 := s.ready[v.pri := Remove(s.ready[v.pri], r)];
                         s1.ready == r0[p := [r] + r0[p]])
  {
    hide WaitOk, OrderOk, EvtOk, OwnOk, ObjOk;
    var s1 := SetHeld(SetOwner(s, m, Some(r)), r, [m] + s.tcb[r].held);
    if IsCeil(s.inib, m) {
      ChangeForm(s1, r, Ceil(s.inib, m), true);
    }
  }
}
