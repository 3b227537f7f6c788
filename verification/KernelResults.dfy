/** What callers get: results about single calls and about whole runs that follow from
    the kernel invariant. */
module KernelResults {
  import opened Lists
  import opened KernelSpec
  import opened KernelFlags
  import opened KernelInv
  import opened KernelKeeps
  import opened KernelSteps
  import opened KernelTasks
  import opened KernelSync
  import opened KernelData
  import opened KernelRun

  // ---- a data queue is one FIFO ----------------------------------------------------------

  /** The data of the waiting senders, in the order of the queue. */
  ghost function Offered(tcb: seq<Tcb>, q: seq<Tid>): seq<Item> {
    if q == [] then []
    else (if q[0] < |tcb| then [tcb[q[0]].item] else []) + Offered(tcb, q[1..])
  }

  /** The queue a data queue stands for: what is stored, then what waiting senders offer. */
  ghost function Fifo(s: State, o: nat): seq<Item>
    requires Shape(s) && IsDtq(s, o)
  {
    s.objs[o].items + Offered(s.tcb, s.wq[o])
  }

  /** A data queue whose senders wait in FIFO order, and not a priority data queue. */
  predicate IsFifo(s: State, o: nat) {
    IsDtq(s, o) && !s.inib[o].tpri && !s.inib[o].prio
  }

  lemma {:induction false} OfferedFrame(tcb: seq<Tcb>, tcb1: seq<Tcb>, q: seq<Tid>)
    requires |tcb1| == |tcb| && forall t :: t in q && t < |tcb| ==> tcb1[t].item == tcb[t].item
    ensures Offered(tcb1, q) == Offered(tcb, q)
  {
    if q != [] {
      OfferedFrame(tcb, tcb1, q[1..]);
    }
  }

  lemma {:induction false} OfferedSnoc(tcb: seq<Tcb>, q: seq<Tid>, t: Tid)
    requires t < |tcb|
    ensures Offered(tcb, q + [t]) == Offered(tcb, q) + [tcb[t].item]
  {
    if q == [] {
      assert q + [t] == [t];
      assert Offered(tcb, [t][1..]) == [];
    } else {
      OfferedSnoc(tcb, q[1..], t);
      assert (q + [t])[1..] == q[1..] + [t];
    }
  }

  /** Sending to a data queue no one waits to receive from: the data goes to the end of
      the FIFO whether it is stored or its sender waits; if the call fails, nothing changes. */
  lemma SendAppends(s: State, r: Tid, o: nat, it: Item, tmo: Tmo)
    requires Inv(s) && s.run == Some(r) && !s.intctx && IsFifo(s, o) && s.wq[RcvQ(s, o)] == []
    ensures var (s1, er) := SndDtq(s, r, o, it, tmo);
      && Shape(s1) && s1.inib == s.inib
      && (er == E_OK || er == Blocked ==> Fifo(s1, o) == Fifo(s, o) + [it])
      && (er != E_OK && er != Blocked ==> s1 == s)
  {
    var items := s.objs[o].items;
    assert ObjOk(s, o);
    if |items| < s.inib[o].dtqcnt {
      assert s.wq[o] == [];
    } else if tmo != Pol && !s.tcb[r].waifbd {
      SenderJoins(s, r, o, it, tmo == After);
    }
  }

  lemma SenderJoins(s: State, r: Tid, o: nat, it: Item, tmo: bool)
    requires Links(s, {}) && r < |s.tcb| && s.tcb[r].tstat.Runnable? && IsFifo(s, o)
    ensures var s1 := WobjMakeWait(SetItem(s, r, it), r, o, tmo); Fifo(s1, o) == Fifo(s, o) + [it]
  {
    var s1 := WobjMakeWait(SetItem(s, r, it), r, o, tmo);
    assert r !in s.wq[o];
    OfferedFrame(s.tcb, s1.tcb, s.wq[o]);
    OfferedSnoc(s1.tcb, s.wq[o], r);
  }

  /** Sending when a task waits to receive: the FIFO is and stays empty, and that task is
      released with the data. */
  lemma SendHandsOver(s: State, o: nat, it: Item)
    requires Core(s) && IsFifo(s, o) && s.wq[RcvQ(s, o)] != []
    ensures var t := s.wq[RcvQ(s, o)][0]; var s1 := HandOver(s, o, it);
      && t < |s.tcb| && Fifo(s, o) == [] && IsDtq(s1, o) && Fifo(s1, o) == []
      && s1.tcb[t].item == it && s1.tcb[t].wercd == E_OK && !s1.tcb[t].tstat.Waiting?
      && SendData(s, o, it) == Some(s1)
  {
    hide ReadyOk, OrderOk, EvtOk, OwnOk, PriOk;
    assert ObjOk(s, o);
    HeadWaits(s, RcvQ(s, o));
    var t := s.wq[RcvQ(s, o)][0];
    ItemCore(s, t, it);
    WakeEffect(SetItem(s, t, it), t, E_OK, {});
  }

  /** Receiving from a FIFO that is not empty returns its head and leaves the rest, even
      when the capacity is 0 and the head is the data of a waiting sender. */
  lemma ReceivePops(s: State, o: nat)
    requires Core(s) && IsFifo(s, o) && Fifo(s, o) != []
    ensures var q := ReceiveData(s, o);
      && q.Some? && q.value.1 == Fifo(s, o)[0]
      && IsDtq(q.value.0, o) && Shape(q.value.0) && Fifo(q.value.0, o) == Fifo(s, o)[1..]
  {
    hide ReadyOk, WaitOk, OrderOk, EvtOk, OwnOk, PriOk, WakeHead, ObjOk, Offered;
    OfferedNone(s.tcb);
    var items := s.objs[o].items;
    if s.wq[o] != [] {
      HeadWaits(s, o);
      var it := s.tcb[s.wq[o][0]].item;
      var s0 := if items == [] then s else SetItems(s, o, AddItem(false, items[1..], it));
      SenderReleased(s, s0, o);
      var rest := Offered(WakeHead(s0, o).tcb, WakeHead(s0, o).wq[o]);
      PopShift(items, it, rest);
    }
  }

  lemma OfferedNone(tcb: seq<Tcb>)
    ensures Offered(tcb, []) == []
  {
  }

  lemma PopShift(items: seq<Item>, it: Item, rest: seq<Item>)
    ensures items + ([it] + rest) == items + [it] + rest
    ensures items == [] ==> (items + ([it] + rest))[0] == it && (items + ([it] + rest))[1..] == rest
    ensures items != [] ==>
      (items + ([it] + rest))[0] == items[0] && (items + ([it] + rest))[1..] == items[1..] + [it] + rest
  {
  }

  lemma SenderReleased(s: State, s0: State, o: nat)
    requires Core(s) && IsFifo(s, o) && s.wq[o] != [] && Shape(s0) && s0 == s.(objs := s0.objs)
    ensures s.wq[o][0] < |s.tcb| && Shape(WakeHead(s0, o)) && WakeHead(s0, o).inib == s.inib
    ensures WakeHead(s0, o).objs == s0.objs
    ensures Offered(s.tcb, s.wq[o]) == [s.tcb[s.wq[o][0]].item] + Offered(WakeHead(s0, o).tcb, WakeHead(s0, o).wq[o])
  {
    hide OwnOk, PriOk, ObjOk;
    HeadWaits(s, o);
    var t := s.wq[o][0];
    var s1 := WakeHead(s0, o);
    assert Remove(s.wq[o], t) == s.wq[o][1..];
    OfferedFrame(s.tcb, s1.tcb, s.wq[o][1..]);
  }

  /** Forced sending drops nothing but the oldest stored data, and only when the storage
      is full; the new data goes before the data of waiting senders. */
  lemma ForceKeepsSenders(s: State, o: nat, it: Item)
    requires Core(s) && IsFifo(s, o) && s.wq[RcvQ(s, o)] == [] && s.inib[o].dtqcnt > 0
    ensures var s1 := ForceSendData(s, o, it); var items := s.objs[o].items;
      && IsDtq(s1, o)
      && (|items| < s.inib[o].dtqcnt ==> Fifo(s1, o) == Fifo(s, o) + [it] && Offered(s.tcb, s.wq[o]) == [])
      && (|items| == s.inib[o].dtqcnt ==> Fifo(s1, o) == items[1..] + [it] + Offered(s.tcb, s.wq[o]))
  {
    assert ObjOk(s, o);
  }

  /** The data was sent: handed to the task that waited first to receive, whose wait is
      over, or stored as the last of the data. */
  ghost predicate Sent(s: State, s1: State, o: nat, it: Item)
    requires Shape(s) && IsDtq(s, o) && Shape(s1) && IsDtq(s1, o)
  {
    if s.wq[RcvQ(s, o)] != [] then
      var t := s.wq[RcvQ(s, o)][0];
      t < |s1.tcb| && s1.tcb[t].item == it && s1.tcb[t].wercd == E_OK && !s1.tcb[t].tstat.Waiting?
    else
      var items := s1.objs[o].items;
      items != [] && items[|items| - 1] == it && s1.wq == s.wq && s1.tcb == s.tcb
  }

  /** fsnd_dtq and ifsnd_dtq always return E_OK; but the data was sent exactly when the data
      queue has a capacity.  Otherwise nothing happens, even if a task waits to receive. */
  lemma ForcedSendResult(s: State, o: nat, it: Item)
    requires Core(s) && IsDtq(s, o) && !s.inib[o].prio
    ensures var (s1, er) := FsndDtq(s, o, it);
      && er == E_OK && Shape(s1) && IsDtq(s1, o)
      && (Sent(s, s1, o, it) <==> s.inib[o].dtqcnt > 0)
      && (s.inib[o].dtqcnt == 0 ==> s1 == s)
  {
    hide ReadyOk, WaitOk, OrderOk, EvtOk, OwnOk, PriOk, HandOver;
    assert ObjOk(s, o);
    if s.wq[RcvQ(s, o)] != [] {
      HeadWaits(s, RcvQ(s, o));
      HandedOver(s, o, it);
    }
  }

  lemma HandedOver(s: State, o: nat, it: Item)
    requires Core(s) && IsDtq(s, o) && s.wq[RcvQ(s, o)] != [] && s.wq[RcvQ(s, o)][0] < |s.tcb|
    ensures var s1 := HandOver(s, o, it); Shape(s1) && IsDtq(s1, o) && Sent(s, s1, o, it)
  {
    hide ReadyOk, WaitOk, OrderOk, EvtOk, OwnOk, PriOk, ObjOk;
    HeadWaits(s, RcvQ(s, o));
    var t := s.wq[RcvQ(s, o)][0];
    ItemCore(s, t, it);
    WakeEffect(SetItem(s, t, it), t, E_OK, {});
  }

  /** In state s, a task sends to o by force, is told E_OK, and nothing was sent. */
  ghost predicate SendLost(s: State, o: nat, it: Item) {
    && Reachable(s) && Shape(s) && s.run.Some? && !s.intctx
    && IsDtq(s, o) && !s.inib[o].prio && s.inib[o].dtqcnt == 0
    && Step(s, Data(OpFsndDtq(o, it))) == (s, E_OK) && !Sent(s, s, o, it)
  }

  /** And it does happen, in a state that start-up reaches. */
  lemma ForcedSendLost(it: Item)
    ensures exists s, o: nat :: SendLost(s, o, it)
  {
    hide Inv, Boot, Reachable, CfgOk;
    var cfg, inib := [TaskCfg(true, 5, 0)], [DtqInib(false, 0, false, 0)];
    OneTaskCfg(cfg, inib);
    OneTask(cfg, inib);
    var s := Boot(cfg, inib, [0]);
    LostNow(s, it);
    assert SendLost(s, 0, it);
  }

  lemma LostNow(s: State, it: Item)
    requires Reachable(s) && Inv(s) && s.run == Some(0) && !s.intctx && s.inib == [DtqInib(false, 0, false, 0)]
    ensures SendLost(s, 0, it)
  {
    hide ReadyOk, OrderOk, EvtOk, OwnOk, PriOk, ObjOk, FsndDtq, Sent, Reachable;
    ForcedSendResult(s, 0, it);
    SettledInv(s);
  }

  lemma OneTaskCfg(cfg: seq<TaskCfg>, inib: seq<Inib>)
    requires |cfg| > 0 && cfg[0].exs && forall o :: 0 <= o < |inib| ==> !inib[o].SemInib?
    ensures CfgOk(cfg, inib, [0])
  {
  }

  /** Start-up with one task with TA_ACT, which then runs. */
  lemma OneTask(cfg: seq<TaskCfg>, inib: seq<Inib>)
    requires |cfg| > 0 && cfg[0].exs && CfgOk(cfg, inib, [0])
    ensures var s := Boot(cfg, inib, [0]);
      && Reachable(s) && Inv(s) && s.run == Some(0) && !s.intctx && s.dspflg && s.inib == inib
      && |s.tcb| == |cfg| && s.tcb[0].pri == cfg[0].ipri && s.freeTcb == FreeFrom(cfg, 0)
  {
    hide Inv, CfgOk;
    BootInv(cfg, inib, [0]);
    assert ReachedBy(Boot(cfg, inib, [0]), cfg, inib, [0], []);
    assert StartAll(MakeActive(Blank(cfg, inib), 0), [0][1..]) == MakeActive(Blank(cfg, inib), 0);
    TopIs(MakeActive(Blank(cfg, inib), 0).ready, cfg[0].ipri);
  }

  // ---- a priority data queue is one FIFO for each priority ---------------------------------

  /** The stored data of priority p, in the order of the list. */
  ghost function Of(items: seq<Item>, p: int): seq<Item> {
    if items == [] then [] else (if items[0].pri == p then [items[0]] else []) + Of(items[1..], p)
  }

  lemma {:induction false} OfNone(items: seq<Item>, p: int)
    requires forall i :: 0 <= i < |items| ==> items[i].pri != p
    ensures Of(items, p) == []
  {
    if items != [] {
      OfNone(items[1..], p);
    }
  }

  lemma OfFirst(items: seq<Item>, it: Item, p: int)
    ensures Of([it] + items, p) == (if it.pri == p then [it] else []) + Of(items, p)
  {
    assert ([it] + items)[1..] == items;
  }

  /** Storing appends to the FIFO of the priority of the data and leaves the others alone. */
  lemma {:induction false} OfInsert(items: seq<Item>, it: Item, p: int)
    requires ItemsSorted(items)
    ensures Of(InsertItem(items, it), p) == Of(items, p) + (if it.pri == p then [it] else [])
  {
    hide Of;
    OfFirst([], it, p);
    OfNone([], p);
    if items == [] {
      assert [it] + [] == [it];
    } else if items[0].pri > it.pri {
      OfFirst(items, it, p);
      if it.pri == p {
        OfNone(items, p);
      }
    } else {
      var rest := InsertItem(items[1..], it);
      OfInsert(items[1..], it, p);
      OfFirst(rest, items[0], p);
      OfFirst(items[1..], items[0], p);
      assert [items[0]] + items[1..] == items;
    }
  }

  /** Sending to a priority data queue with room and no receivers. */
  lemma SendsByPriority(s: State, o: nat, it: Item, p: int)
    requires Core(s) && IsDtq(s, o) && s.inib[o].prio && s.wq[RcvQ(s, o)] == []
    requires |s.objs[o].items| < s.inib[o].dtqcnt
    ensures var q := SendData(s, o, it);
      && q.Some? && Shape(q.value) && IsDtq(q.value, o)
      && Of(q.value.objs[o].items, p) == Of(s.objs[o].items, p) + (if it.pri == p then [it] else [])
  {
    hide ReadyOk, WaitOk, OrderOk, EvtOk, OwnOk, PriOk, InsertItem, Of;
    assert ObjOk(s, o);
    OfInsert(s.objs[o].items, it, p);
  }

  /** Receiving returns the earliest of the most urgent data stored, the head of the FIFO of
      the least priority value present, and takes just that one off; if a task waits to
      send, its data is then appended to the FIFO of its priority. */
  lemma ReceivesByPriority(s: State, o: nat, p: int)
    requires Core(s) && IsDtq(s, o) && s.inib[o].prio && s.objs[o].items != []
    ensures s.wq[o] != [] ==> s.wq[o][0] < |s.tcb|
    ensures var items := s.objs[o].items; var q := ReceiveData(s, o);
      && q.Some? && Shape(q.value.0) && IsDtq(q.value.0, o)
      && Of(items, q.value.1.pri) != [] && Of(items, q.value.1.pri)[0] == q.value.1
      && (p < q.value.1.pri ==> Of(items, p) == [])
      && Of(q.value.0.objs[o].items, p) ==
           (if p == q.value.1.pri then Of(items, p)[1..] else Of(items, p))
           + (if s.wq[o] != [] && s.tcb[s.wq[o][0]].item.pri == p then [s.tcb[s.wq[o][0]].item] else [])
  {
    hide ReadyOk, WaitOk, OrderOk, EvtOk, OwnOk, PriOk, InsertItem, WakeHead;
    var items := s.objs[o].items;
    assert ObjOk(s, o);
    if p < items[0].pri {
      OfNone(items, p);
    }
    if s.wq[o] != [] {
      HeadWaits(s, o);
      OfInsert(items[1..], s.tcb[s.wq[o][0]].item, p);
      WakeKeepsObjs(SetItems(s, o, InsertItem(items[1..], s.tcb[s.wq[o][0]].item)), o);
    }
  }

  lemma WakeKeepsObjs(s: State, q: nat)
    requires Shape(s) && q < |s.wq| && s.wq[q] != []
    ensures WakeHead(s, q).objs == s.objs
  {
  }

  // ---- event flags: who is released ------------------------------------------------------

  /** Exactly the tasks of ts whose conditions hold are released, each with the pattern; the
      others keep waiting. */
  ghost predicate AllTake(s: State, s1: State, o: nat, ts: seq<Tid>)
    requires Shape(s) && IsFlg(s, o)
  {
    var ptn := s.objs[o].ptn;
    && s1.objs == s.objs && |s1.tcb| == |s.tcb|
    && (forall u :: 0 <= u < |s.tcb| && u !in ts ==> s1.tcb[u] == s.tcb[u])
    && (forall u :: u in ts ==> u < |s.tcb| && s.tcb[u].tstat.Waiting?)
    && (forall u :: u in ts && Meets(ptn, s.tcb[u].waiptn, s.tcb[u].orw) ==>
          s1.tcb[u] == Woken(s.tcb[u].(flgptn := ptn), E_OK))
    && (forall u :: u in ts && !Meets(ptn, s.tcb[u].waiptn, s.tcb[u].orw) ==> s1.tcb[u] == s.tcb[u])
  }

  /** The walk of set_flg along any part of the queue of a flag without TA_CLR. */
  lemma {:induction false} WalkReleases(s: State, o: nat, ts: seq<Tid>)
    requires Walking(s, o, ts) && !s.inib[o].clr
    ensures AllTake(s, FlgWalk(s, o, ts), o, ts)
    decreases |ts|
  {
    hide ReadyOk, WaitOk, OrderOk, EvtOk, OwnOk, PriOk, FlgCond, Meets, ObjOk, FlgFalse, AllTake, NoDup;
    if ts == [] {
      NobodyTakes(s, o);
    } else {
      var t := ts[0];
      assert t in ts;
      WalkWaiting(s, o, t);
      TailOf(ts);
      CondMeets(s.objs[o].ptn, s.tcb[t].waiptn, s.tcb[t].orw);
      if FlgCond(s.objs[o].ptn, s.tcb[t].waiptn, s.tcb[t].orw) {
        var s2 := WalkHit(s, o, ts);
        HitEffect(s, o, t);
        WalkReleases(s2, o, ts[1..]);
        OneMoreTakes(s, s2, FlgWalk(s2, o, ts[1..]), o, ts);
      } else {
        WalkMiss(s, o, ts);
        WalkReleases(s, o, ts[1..]);
        OneTakesNot(s, FlgWalk(s, o, ts[1..]), o, ts);
      }
    }
  }

  lemma NobodyTakes(s: State, o: nat)
    requires Shape(s) && IsFlg(s, o)
    ensures AllTake(s, s, o, [])
  {
  }

  lemma OneMoreTakes(s: State, s2: State, s3: State, o: nat, ts: seq<Tid>)
    requires Shape(s) && IsFlg(s, o) && Shape(s2) && s2.inib == s.inib && s2.objs == s.objs && ts != []
    requires ts[0] < |s.tcb| && s.tcb[ts[0]].tstat.Waiting? && Meets(s.objs[o].ptn, s.tcb[ts[0]].waiptn, s.tcb[ts[0]].orw)
    requires s2.tcb == s.tcb[ts[0] := Woken(s.tcb[ts[0]].(flgptn := s.objs[o].ptn), E_OK)]
    requires (forall t :: t in ts[1..] <==> t in ts && t != ts[0]) && AllTake(s2, s3, o, ts[1..])
    ensures AllTake(s, s3, o, ts)
  {
    hide Meets;
  }

  lemma OneTakesNot(s: State, s1: State, o: nat, ts: seq<Tid>)
    requires Shape(s) && IsFlg(s, o) && ts != []
    requires ts[0] < |s.tcb| && s.tcb[ts[0]].tstat.Waiting? && !Meets(s.objs[o].ptn, s.tcb[ts[0]].waiptn, s.tcb[ts[0]].orw)
    requires (forall t :: t in ts[1..] <==> t in ts && t != ts[0]) && AllTake(s, s1, o, ts[1..])
    ensures AllTake(s, s1, o, ts)
  {
    hide Meets;
  }

  lemma HitEffect(s: State, o: nat, t: Tid)
    requires Good(s, {}, {}) && IsFlg(s, o) && t < |s.tcb| && s.tcb[t].tstat.Waiting?
    ensures var ptn := s.objs[o].ptn;
      var s1 := s.(tcb := s.tcb[t := s.tcb[t].(flgptn := ptn)], objs := s.objs[o := FlgCb(if s.inib[o].clr then 0 else ptn)]);
      && Wake(s1, t, E_OK).tcb == s.tcb[t := Woken(s.tcb[t].(flgptn := ptn), E_OK)]
      && Wake(s1, t, E_OK).objs == s1.objs
  {
    var ptn := s.objs[o].ptn;
    UpdateTwice(s.tcb, t, s.tcb[t].(flgptn := ptn), Woken(s.tcb[t].(flgptn := ptn), E_OK));
    assert !s.inib[o].clr ==> s.objs[o := FlgCb(ptn)] == s.objs;
  }

  /** The place of the first task whose condition holds. */
  ghost function FirstHit(s: State, o: nat, ts: seq<Tid>): (k: nat)
    requires Shape(s) && IsFlg(s, o) && forall i :: 0 <= i < |ts| ==> ts[i] < |s.tcb|
    ensures k <= |ts|
    ensures forall i :: 0 <= i < k ==> !Meets(s.objs[o].ptn, s.tcb[ts[i]].waiptn, s.tcb[ts[i]].orw)
    ensures k < |ts| ==> Meets(s.objs[o].ptn, s.tcb[ts[k]].waiptn, s.tcb[ts[k]].orw)
  {
    if ts == [] || Meets(s.objs[o].ptn, s.tcb[ts[0]].waiptn, s.tcb[ts[0]].orw) then 0
    else 1 + FirstHit(s, o, ts[1..])
  }

  /** Only the first task of ts whose condition holds is released; it gets the pattern, which is
      then cleared. */
  ghost predicate FirstTakes(s: State, s1: State, o: nat, ts: seq<Tid>)
    requires Shape(s) && IsFlg(s, o) && forall i :: 0 <= i < |ts| ==> ts[i] < |s.tcb|
  {
    var ptn := s.objs[o].ptn;
    var k := FirstHit(s, o, ts);
    if k == |ts| then s1 == s
    else s.tcb[ts[k]].tstat.Waiting? && s1.tcb == s.tcb[ts[k] := Woken(s.tcb[ts[k]].(flgptn := ptn), E_OK)]
         && s1.objs == s.objs[o := FlgCb(0)]
  }

  lemma {:induction false} WalkReleasesFirst(s: State, o: nat, ts: seq<Tid>)
    requires Walking(s, o, ts) && s.inib[o].clr && forall i :: 0 <= i < |ts| ==> ts[i] < |s.tcb|
    ensures FirstTakes(s, FlgWalk(s, o, ts), o, ts)
    decreases |ts|
  {
    hide ReadyOk, WaitOk, OrderOk, EvtOk, OwnOk, PriOk, FlgCond, Meets, ObjOk, FlgFalse, FirstTakes;
    if ts == [] {
      NoneTakes(s, o);
    } else {
      assert ts[0] in ts;
      WalkWaiting(s, o, ts[0]);
      TailOf(ts);
      CondMeets(s.objs[o].ptn, s.tcb[ts[0]].waiptn, s.tcb[ts[0]].orw);
      if FlgCond(s.objs[o].ptn, s.tcb[ts[0]].waiptn, s.tcb[ts[0]].orw) {
        HeadTakes(s, o, ts);
      } else {
        WalkMiss(s, o, ts);
        WalkReleasesFirst(s, o, ts[1..]);
        LaterTakes(s, FlgWalk(s, o, ts[1..]), o, ts);
      }
    }
  }

  lemma NoneTakes(s: State, o: nat)
    requires Shape(s) && IsFlg(s, o)
    ensures FirstTakes(s, s, o, [])
  {
  }

  lemma HeadTakes(s: State, o: nat, ts: seq<Tid>)
    requires Good(s, {}, {}) && IsFlg(s, o) && s.inib[o].clr && ts != [] && forall i :: 0 <= i < |ts| ==> ts[i] < |s.tcb|
    requires s.tcb[ts[0]].tstat.Waiting? && FlgCond(s.objs[o].ptn, s.tcb[ts[0]].waiptn, s.tcb[ts[0]].orw)
    requires Meets(s.objs[o].ptn, s.tcb[ts[0]].waiptn, s.tcb[ts[0]].orw)
    ensures FirstTakes(s, FlgWalk(s, o, ts), o, ts)
  {
    hide ReadyOk, WaitOk, OrderOk, EvtOk, OwnOk, PriOk, FlgCond, Meets, Wake;
    HitEffect(s, o, ts[0]);
  }

  lemma LaterTakes(s: State, s1: State, o: nat, ts: seq<Tid>)
    requires Shape(s) && IsFlg(s, o) && ts != [] && forall i :: 0 <= i < |ts| ==> ts[i] < |s.tcb|
    requires !Meets(s.objs[o].ptn, s.tcb[ts[0]].waiptn, s.tcb[ts[0]].orw) && FirstTakes(s, s1, o, ts[1..])
    ensures FirstTakes(s, s1, o, ts)
  {
    hide Meets;
  }

  /** set_flg without TA_CLR: the new pattern has the old bits and those set; the waiting
      tasks that are released are exactly those whose conditions it meets; no other task
      changes. */
  lemma SetFlgReleases(s: State, o: nat, setptn: bv32, u: Tid) returns (ptn: bv32)
    requires Core(s) && IsFlg(s, o) && !s.inib[o].clr && u < |s.tcb|
    ensures Joined(ptn, s.objs[o].ptn, setptn)
    ensures var s1 := SetFlg(s, o, setptn).0; var v := s.tcb[u];
      && s1.objs == s.objs[o := FlgCb(ptn)] && |s1.tcb| == |s.tcb|
      && (u in s.wq[o] ==> v.tstat.Waiting?)
      && s1.tcb[u] == if u in s.wq[o] && Meets(ptn, v.waiptn, v.orw) then Woken(v.(flgptn := ptn), E_OK) else v
  {
    hide ReadyOk, WaitOk, OrderOk, EvtOk, OwnOk, PriOk, FlgCond, Meets, ObjOk, FlgWalk, SetBits, Joined;
    ptn := SetBits(s.objs[o].ptn, setptn);
    BitsJoined(s.objs[o].ptn, setptn);
    SetFlgStart(s, o, setptn);
    WalkReleases(s.(objs := s.objs[o := FlgCb(ptn)]), o, s.wq[o]);
  }

  /** set_flg with TA_CLR: only the first waiting task whose condition holds is released,
      and the pattern is cleared exactly when there is one. */
  lemma SetFlgReleasesFirst(s: State, o: nat, setptn: bv32) returns (ptn: bv32)
    requires Core(s) && IsFlg(s, o) && s.inib[o].clr
    ensures forall i :: 0 <= i < |s.wq[o]| ==> s.wq[o][i] < |s.tcb|
    ensures Joined(ptn, s.objs[o].ptn, setptn)
    ensures FirstTakes(s.(objs := s.objs[o := FlgCb(ptn)]), SetFlg(s, o, setptn).0, o, s.wq[o])
  {
    hide ReadyOk, WaitOk, OrderOk, EvtOk, OwnOk, PriOk, FlgCond, Meets, ObjOk, FlgWalk, SetBits, Joined, FirstTakes;
    ptn := SetBits(s.objs[o].ptn, setptn);
    BitsJoined(s.objs[o].ptn, setptn);
    SetFlgStart(s, o, setptn);
    QueueWaiting(s, o, {});
    forall i | 0 <= i < |s.wq[o]| ensures s.wq[o][i] < |s.tcb| {
      assert s.wq[o][i] in s.wq[o];
    }
    WalkReleasesFirst(s.(objs := s.objs[o := FlgCb(ptn)]), o, s.wq[o]);
  }

  // ---- locking and unlocking --------------------------------------------------------------

  /** Unlocking undoes locking altogether: priorities, the ready order and the mutex are
      as before, whatever the ceiling and whatever else the task holds. */
  lemma LockUnlock(s: State, r: Tid, m: nat, tmo: Tmo)
    requires Inv(s) && s.run == Some(r) && !s.intctx && s.dspflg
    requires IsMtx(s, m) && s.objs[m].loctsk == None && CeilOk(s.inib, s.tcb[r].bpri, m)
    ensures var (s1, er) := LocMtx(s, r, m, tmo);
      er == E_OK && Shape(s1) && |s1.tcb| == |s.tcb| && UnlMtx(s1, r, m) == (s, E_OK)
  {
    hide ReadyOk, WaitOk, OrderOk, EvtOk, MutexAcquire, Unhold;
    assert ObjOk(s, m);
    var v := s.tcb[r];
    assert m !in v.held;
    FirstOfQueue(s.tcb, s.ready, r);
    LockForm(s, r, m);
    UnlockForm(s, r, m);
  }

  lemma FirstOfQueue(tcb: seq<Tcb>, ready: seq<seq<Tid>>, r: Tid)
    requires ReadyOk(tcb, ready, {}) && Top(ready) == Some(r)
    ensures r < |tcb| && tcb[r].tstat.Runnable?
    ensures var q := ready[tcb[r].pri]; q != [] && q[0] == r && NoDup(q)
    ensures forall p :: 0 <= p < 16 && p != tcb[r].pri ==> r !in ready[p]
  {
    var p := TopFromInv(ready, 0);
    assert ready[p][0] in ready[p];
  }

  /** The state after a running task takes a free mutex. */
  ghost function Locked(s: State, r: Tid, m: nat): State
    requires Shape(s) && IsMtx(s, m) && r < |s.tcb| && s.ready[s.tcb[r].pri] != []
  {
    var v := s.tcb[r];
    var s1 := s.(objs := s.objs[m := MtxCb(Some(r))]);
    if IsCeil(s.inib, m) && Ceil(s.inib, m) < v.pri then
      var c := Ceil(s.inib, m);
      var r0 := s.ready[v.pri := s.ready[v.pri][1..]];
      s1.(tcb := s.tcb[r := v.(held := [m] + v.held, pri := c)], ready := r0[c := [r] + r0[c]])
    else s1.(tcb := s.tcb[r := v.(held := [m] + v.held)])
  }

  lemma LockForm(s: State, r: Tid, m: nat)
    requires Shape(s) && IsMtx(s, m) && r < |s.tcb| && s.tcb[r].tstat.Runnable?
    requires var q := s.ready[s.tcb[r].pri]; q != [] && q[0] == r
    ensures MutexAcquire(s, r, m) == Locked(s, r, m)
  {
    var v := s.tcb[r];
    var s1 := SetHeld(SetOwner(s, m, Some(r)), r, [m] + v.held);
    if IsCeil(s.inib, m) && Ceil(s.inib, m) < v.pri {
      var c := Ceil(s.inib, m);
      ChangeForm(s1, r, c, true);
      UpdateTwice(s.tcb, r, v.(held := [m] + v.held), v.(held := [m] + v.held, pri := c));
    }
  }

  lemma UnlockForm(s: State, r: Tid, m: nat)
    requires Shape(s) && IsMtx(s, m) && r < |s.tcb| && s.tcb[r].tstat.Runnable? && s.objs[m] == MtxCb(None)
    requires var q := s.ready[s.tcb[r].pri]; q != [] && q[0] == r && NoDup(q)
    requires forall p :: 0 <= p < 16 && p != s.tcb[r].pri ==> r !in s.ready[p]
    requires s.tcb[r].pri == CalcPri(s.inib, s.tcb[r].bpri, s.tcb[r].held) && m !in s.tcb[r].held
    ensures SetOwner(Unhold(Locked(s, r, m), r, m), m, None) == s
  {
    hide ChangePriority, CalcPri, NoDup, Unhold;
    assert s.tcb[r := s.tcb[r]] == s.tcb && s.objs[m := s.objs[m]] == s.objs;
    if IsCeil(s.inib, m) && Ceil(s.inib, m) < s.tcb[r].pri {
      UnlockRaised(s, r, m);
    } else {
      UnlockUnraised(s, r, m);
    }
    UpdateTwice(s.objs, m, MtxCb(Some(r)), MtxCb(None));
  }

  /** Taking the mutex off the list again: Unhold on a state where only r has changed. */
  lemma UnholdForm(s: State, r: Tid, m: nat)
    requires Shape(s) && IsMtx(s, m) && r < |s.tcb| && s.tcb[r].tstat.Runnable?
    ensures var v := s.tcb[r]; var held := Remove(v.held, m);
      var pri := CalcPri(s.inib, v.bpri, held);
      var drop := IsCeil(s.inib, m) && Ceil(s.inib, m) == v.pri && pri != v.pri;
      var r0 := s.ready[v.pri := Remove(s.ready[v.pri], r)];
      Unhold(s, r, m) == s.(tcb := s.tcb[r := v.(held := held, pri := if drop then pri else v.pri)],
                            ready := if drop then r0[pri := [r] + r0[pri]] else s.ready)
  {
    var v := s.tcb[r];
    var held := Remove(v.held, m);
    var pri := CalcPri(s.inib, v.bpri, held);
    if IsCeil(s.inib, m) && Ceil(s.inib, m) == v.pri && pri != v.pri {
      ChangeForm(SetHeld(s, r, held), r, pri, true);
      UpdateTwice(s.tcb, r, v.(held := held), v.(held := held, pri := pri));
    }
  }

  lemma UnlockRaised(s: State, r: Tid, m: nat)
    requires Shape(s) && IsMtx(s, m) && r < |s.tcb| && s.tcb[r].tstat.Runnable?
    requires IsCeil(s.inib, m) && Ceil(s.inib, m) < s.tcb[r].pri
    requires var q := s.ready[s.tcb[r].pri]; q != [] && q[0] == r
    requires r !in s.ready[Ceil(s.inib, m)]
    requires s.tcb[r].pri == CalcPri(s.inib, s.tcb[r].bpri, s.tcb[r].held) && m !in s.tcb[r].held
    requires s.tcb[r := s.tcb[r]] == s.tcb
    ensures Unhold(Locked(s, r, m), r, m) == s.(objs := s.objs[m := MtxCb(Some(r))])
  {
    hide Unhold, CalcPri;
    var v := s.tcb[r];
    var c := Ceil(s.inib, m);
    var s1 := Locked(s, r, m);
    assert Remove([m] + v.held, m) == v.held;
    UnholdForm(s1, r, m);
    UpdateTwice(s.tcb, r, v.(held := [m] + v.held, pri := c), v);
    BackAgain(s.ready, v.pri, c, r);
  }

  lemma UnlockUnraised(s: State, r: Tid, m: nat)
    requires Shape(s) && IsMtx(s, m) && r < |s.tcb| && s.tcb[r].tstat.Runnable?
    requires !(IsCeil(s.inib, m) && Ceil(s.inib, m) < s.tcb[r].pri) && s.ready[s.tcb[r].pri] != []
    requires s.tcb[r].pri == CalcPri(s.inib, s.tcb[r].bpri, s.tcb[r].held) && m !in s.tcb[r].held
    requires s.tcb[r := s.tcb[r]] == s.tcb
    ensures Unhold(Locked(s, r, m), r, m) == s.(objs := s.objs[m := MtxCb(Some(r))])
  {
    hide Unhold, CalcPri;
    var v := s.tcb[r];
    var s1 := Locked(s, r, m);
    assert Remove([m] + v.held, m) == v.held;
    UnholdForm(s1, r, m);
    UpdateTwice(s.tcb, r, v.(held := [m] + v.held), v);
  }

  /** From the head of queue p to the head of queue c and back. */
  lemma BackAgain(ready: seq<seq<Tid>>, p: nat, c: nat, r: Tid)
    requires p < |ready| && c < |ready| && c != p && ready[p] != [] && ready[p][0] == r && r !in ready[c]
    ensures var r0 := ready[p := ready[p][1..]]; var r1 := r0[c := [r] + r0[c]];
      var r2 := r1[c := Remove(r1[c], r)]; r2[p := [r] + r2[p]] == ready
  {
    var r0 := ready[p := ready[p][1..]];
    assert Remove([r] + r0[c], r) == r0[c];
    assert [r] + ready[p][1..] == ready[p];
  }

  // ---- creating a task with TA_ACT --------------------------------------------------------

  /** In state s, acre_tsk with TA_ACT leaves dispatching due but not done. */
  ghost predicate LeftPending(s: State, ipri: Pri) {
    && Reachable(s) && Shape(s) && s.run.Some? && !s.intctx && s.dspflg && s.freeTcb != []
    && !Inv(AcreTsk(s, ipri, true).0)
  }

  /** And it does happen, in a state that start-up reaches: one running task, a free
      control block, a more urgent task. */
  lemma AcrePending()
    ensures exists s, ipri: Pri :: LeftPending(s, ipri)
  {
    hide Inv, Boot, Reachable, CfgOk, AcreTsk;
    var cfg := [TaskCfg(true, 5, 0), TaskCfg(false, 0, 0)];
    OneTaskCfg(cfg, []);
    OneTask(cfg, []);
    var s := Boot(cfg, [], [0]);
    assert FreeFrom(cfg, 0) == [1];
    AcreKeeps(s, 1);
    InvShape(s);
    assert LeftPending(s, 1);
  }

  lemma InvShape(s: State)
    requires Inv(s)
    ensures Shape(s)
  {
  }

  /** Suspending and resuming a waiting task is no change at all: it keeps its wait, its
      place in the queue and its time-out. */
  lemma SuspendResume(s: State, r: Tid, t: Tid)
    requires Shape(s) && t < |s.tcb| && t != r && s.tcb[t].exs
    requires s.tcb[t].tstat.Waiting? && !s.tcb[t].tstat.susp
    ensures var (s1, er) := SusTsk(s, r, t); er == E_OK && Shape(s1) && RsmTsk(s1, t) == (s, E_OK)
  {
    var v := s.tcb[t];
    UpdateTwice(s.tcb, t, v.(tstat := Waiting(true, v.tstat.on)), v);
    assert s.tcb[t := v] == s.tcb;
  }

  // ---- nobody waits for what is there -----------------------------------------------------

  /** In every reachable state: a task waits on a semaphore only when its count is 0, on a
      flag only while its condition is false, on a mutex only when it is locked, to send
      only when the queue is full, to receive only when it is empty, never both, and for
      a block only when none is free. */
  lemma NobodyWaitsInVain(s: State, o: nat, t: Tid)
    requires Reachable(s) && o < |s.inib| && t < |s.tcb| && WaitsOn(s.tcb[t], o)
    ensures Shape(s)
    ensures IsSem(s, o) ==> s.objs[o].semcnt == 0
    ensures IsFlg(s, o) ==> !Meets(s.objs[o].ptn, s.tcb[t].waiptn, s.tcb[t].orw)
    ensures IsMtx(s, o) ==> s.objs[o].loctsk.Some?
    ensures IsDtq(s, o) ==> |s.objs[o].items| == s.inib[o].dtqcnt
    ensures IsDtq(s, o) ==> forall u :: 0 <= u < |s.tcb| ==> !WaitsOn(s.tcb[u], RcvQ(s, o))
    ensures IsMpf(s, o) ==> s.objs[o].pool.fblkcnt == 0
  {
    hide ReadyOk, OrderOk, EvtOk, OwnOk, PriOk, FlgCond, Meets, PoolOk;
    ReachableInv(s);
    assert t in s.wq[o];
    assert ObjOk(s, o);
    if IsDtq(s, o) {
      assert s.wq[RcvQ(s, o)] == [];
    }
    if IsFlg(s, o) {
      CondMeets(s.objs[o].ptn, s.tcb[t].waiptn, s.tcb[t].orw);
    }
  }

  /** On a wait queue in priority order, the task served next has the highest priority of
      all that wait. */
  lemma HeadIsHighest(s: State, q: nat, u: Tid)
    requires Reachable(s) && q < |s.inib| && ByPriority(s.inib[q]) && u < |s.tcb| && WaitsOn(s.tcb[u], q)
    ensures Shape(s) && s.wq[q] != [] && s.wq[q][0] < |s.tcb| && WaitsOn(s.tcb[s.wq[q][0]], q)
    ensures s.tcb[s.wq[q][0]].pri <= s.tcb[u].pri
  {
    hide ReadyOk, EvtOk, OwnOk, PriOk, ObjOk;
    ReachableInv(s);
    assert u in s.wq[q];
    HeadWaits(s, q);
    var i :| 0 <= i < |s.wq[q]| && s.wq[q][i] == u;
  }

  /** A task waits to receive from a data queue only while nothing is stored and no one
      waits to send; the second queue of any other object is never used. */
  lemma ReceiversFindNothing(s: State, o: nat, t: Tid)
    requires Reachable(s) && o < |s.inib| && t < |s.tcb| && WaitsOn(s.tcb[t], RcvQ(s, o))
    ensures Shape(s) && IsDtq(s, o) && s.objs[o].items == []
    ensures forall u :: 0 <= u < |s.tcb| ==> !WaitsOn(s.tcb[u], o)
  {
    hide ReadyOk, OrderOk, EvtOk, OwnOk, PriOk, FlgCond, PoolOk;
    ReachableInv(s);
    assert t in s.wq[RcvQ(s, o)];
    assert ObjOk(s, o);
    assert s.wq[o] == [];
  }

  /** A semaphore never counts above its maximum. */
  lemma CountsStayInRange(s: State, o: nat)
    requires Reachable(s) && o < |s.inib|
    ensures Shape(s) && (IsSem(s, o) ==> s.objs[o].semcnt <= s.inib[o].maxsem)
    ensures IsDtq(s, o) ==> |s.objs[o].items| <= s.inib[o].dtqcnt
    ensures IsMpf(s, o) ==> s.objs[o].pool.fblkcnt <= s.inib[o].blkcnt
  {
    hide Links, FreeOk, MtxOk;
    ReachableInv(s);
    assert ObjOk(s, o);
    if IsMpf(s, o) {
      Pigeons(s.objs[o].pool.free, s.objs[o].pool.unused);
    }
  }

  /** Dispatching is enabled exactly when neither dis_dsp nor an interrupt mask forbids
      it, and then, in a task, the task to run is running. */
  lemma DispatchFlags(s: State)
    requires Reachable(s)
    ensures s.dspflg == (s.ipmflg && !s.disdsp)
    ensures !s.intctx && s.dspflg ==> s.run == Sched(s)
  {
    ReachableInv(s);
    hide Links, FreeOk, MtxOk, ObjsOk;
  }

  // ---- fixed pools ------------------------------------------------------------------------

  lemma {:induction false} RemoveLength(q: seq<nat>, x: nat)
    ensures |q| <= |Remove(q, x)| + 1
  {
    if q != [] && q[0] != x {
      RemoveLength(q[1..], x);
    }
  }

  lemma {:induction false} Pigeons(q: seq<nat>, n: nat)
    requires NoDup(q) && forall b :: b in q ==> b < n
    ensures |q| <= n
    decreases n
  {
    hide NoDup, Remove;
    if q != [] {
      assert q[0] in q;
      RemoveSpec(q, n - 1);
      RemoveLength(q, n - 1);
      Pigeons(Remove(q, n - 1), n - 1);
    }
  }

  /** In every reachable state each block of a pool is in exactly one of the free list, the
      never-used tail and the allocated blocks, and fblkcnt counts the first two. */
  lemma BlocksArePartitioned(s: State, o: nat, b: nat)
    requires Reachable(s) && IsMpf(s, o) && Shape(s) && b < s.inib[o].blkcnt
    ensures var p := s.objs[o].pool;
      && (b in p.free || b in p.alloc || b >= p.unused)
      && !(b in p.free && b in p.alloc) && !(b in p.free && b >= p.unused) && !(b in p.alloc && b >= p.unused)
      && NoDup(p.free) && p.fblkcnt == |p.free| + (s.inib[o].blkcnt - p.unused)
  {
    ReachableInv(s);
    hide Links, FreeOk, MtxOk;
    assert ObjOk(s, o);
  }

  /** A block handed out was not allocated before. */
  lemma GrantedIsNew(s: State, r: Tid, o: nat, tmo: Tmo)
    requires Core(s) && r < |s.tcb| && IsMpf(s, o) && GetMpf(s, r, o, tmo).1 == E_OK
    ensures var s1 := GetMpf(s, r, o, tmo).0; var b := s1.tcb[r].item.data;
      && r < |s1.tcb| && 0 <= b < s.inib[o].blkcnt && b !in s.objs[o].pool.alloc
      && Shape(s1) && IsMpf(s1, o) && s1.objs[o].pool.alloc == s.objs[o].pool.alloc + {b}
  {
    hide Links, FreeOk, MtxOk, PoolOk;
    assert ObjOk(s, o);
    GetBlockOk(s.objs[o].pool, s.inib[o].blkcnt);
  }

  /** rel_mpf accepts exactly the allocated blocks; a second release, or one after the pool
      was initialized again, is refused. */
  lemma ReleaseOnce(s: State, o: nat, b: nat)
    requires Inv(s) && IsMpf(s, o)
    ensures RelMpf(s, o, b).1 == E_OK <==> b in s.objs[o].pool.alloc
    ensures RelMpf(s, o, b).1 == E_OK && s.wq[o] == [] ==>
      Shape(RelMpf(s, o, b).0) && RelMpf(RelMpf(s, o, b).0, o, b).1 == E_PAR
    ensures Shape(IniMpf(s, o).0) && RelMpf(IniMpf(s, o).0, o, b).1 == E_PAR
  {
    hide Links, FreeOk, MtxOk;
    assert ObjOk(s, o);
  }
}
