/** Semaphores, event flags, data queues and fixed pools keep the kernel invariant:
    in particular no task is left waiting for what its object can give. */
module KernelSync {
  import opened Lists
  import opened KernelSpec
  import opened KernelInv
  import opened KernelKeeps
  import opened KernelSteps

  // ---- semaphores --------------------------------------------------------------

  lemma SigSemCore(s: State, o: nat)
    requires Core(s)
    ensures Core(SigSem(s, o).0) && Calm(s, SigSem(s, o).0)
  {
    hide ReadyOk, WaitOk, OrderOk, EvtOk, OwnOk, PriOk, WakeHead;
    if IsSem(s, o) {
      assert ObjOk(s, o);
      if s.wq[o] != [] {
        WakeHeadCore(s, o);
      } else if s.objs[o].semcnt < s.inib[o].maxsem {
        ObjCore(s, o, SemCb(s.objs[o].semcnt + 1));
      }
    }
  }

  lemma WaiSemInv(s: State, r: Tid, o: nat, tmo: Tmo)
    requires Inv(s) && s.run == Some(r) && !s.intctx && (s.dspflg || tmo == Pol)
    ensures Inv(WaiSem(s, r, o, tmo).0)
  {
    hide ReadyOk, WaitOk, OrderOk, EvtOk, OwnOk, PriOk, WobjMakeWait;
    if IsSem(s, o) {
      assert ObjOk(s, o);
      if s.objs[o].semcnt >= 1 {
        ObjCore(s, o, SemCb(s.objs[o].semcnt - 1));
        CalmInv(s, WaiSem(s, r, o, tmo).0);
      } else if tmo != Pol && !s.tcb[r].waifbd {
        JoinSemObj(s, r, o, tmo == After);
        JoinInv(s, r, o, tmo == After);
      }
    }
  }

  lemma JoinSemObj(s: State, r: Tid, o: nat, tmo: bool)
    requires Core(s) && r < |s.tcb| && s.tcb[r].tstat.Runnable? && IsSem(s, o) && s.objs[o].semcnt == 0
    ensures ObjOk(WobjMakeWait(s, r, o, tmo), o)
  {
    hide ReadyOk, WaitOk, OrderOk, EvtOk, OwnOk, PriOk, WobjMakeWait;
    assert ObjOk(s, o);
    JoinEffect(s, r, o, tmo);
  }

  lemma IniSemInv(s: State, o: nat)
    requires Inv(s)
    ensures Inv(IniSem(s, o).0)
  {
    hide ReadyOk, WaitOk, OrderOk, EvtOk, OwnOk, PriOk, WakeAll;
    if IsSem(s, o) {
      assert ObjOk(s, o);
      WakeAllCore(s, o);
      var s1 := WakeAll(s, s.wq[o]);
      assert ObjOk(s1, o);
      ObjCore(s1, o, SemCb(s.inib[o].isemcnt));
      CalmInv(s, s1.(objs := s1.objs[o := SemCb(s.inib[o].isemcnt)]));
    }
  }

  // ---- event flags ---------------------------------------------------------------

  /** Clearing bits makes no wait condition true. */
  lemma CondMono(ptn: bv32, c: bv32, w: bv32, orw: bool)
    ensures !FlgCond(ptn, w, orw) ==> !FlgCond(ClearBits(ptn, c), w, orw)
  {
    if orw {
      if ptn & w == 0 {
        FewerOr(ptn, c, w);
      }
    } else if ptn & c & w == w {
      FewerAnd(ptn, c, w);
    }
  }

  lemma FewerOr(ptn: bv32, c: bv32, w: bv32)
    requires ptn & w == 0
    ensures ptn & c & w == 0
  {
  }

  lemma FewerAnd(ptn: bv32, c: bv32, w: bv32)
    requires ptn & c & w == w
    ensures ptn & w == w
  {
  }

  lemma CondZero(ptn: bv32, w: bv32, orw: bool)
    ensures !FlgCond(ptn, w, orw) ==> !FlgCond(0, w, orw)
  {
    CondMono(ptn, 0, w, orw);
    assert ptn & 0 == 0;
  }

  /** A new pattern that satisfies none of the waiting tasks. */
  lemma FlgCore(s: State, o: nat, ptn: bv32)
    requires Core(s) && IsFlg(s, o)
    requires forall t :: t in s.wq[o] ==> t < |s.tcb| && !FlgCond(ptn, s.tcb[t].waiptn, s.tcb[t].orw)
    ensures Core(s.(objs := s.objs[o := FlgCb(ptn)]))
  {
    assert ObjOk(s, o);
    ObjCore(s, o, FlgCb(ptn));
  }

  lemma ClrFlgCore(s: State, o: nat, c: bv32)
    requires Core(s)
    ensures Core(ClrFlg(s, o, c).0) && Calm(s, ClrFlg(s, o, c).0) && ClrFlg(s, o, c).0.ready == s.ready
  {
    if IsFlg(s, o) {
      assert ObjOk(s, o);
      hide ReadyOk, WaitOk, OrderOk, EvtOk, OwnOk, PriOk, ObjOk, FlgCond, ClearBits;
      var ptn := ClearBits(s.objs[o].ptn, c);
      forall t | t in s.wq[o] ensures t < |s.tcb| && !FlgCond(ptn, s.tcb[t].waiptn, s.tcb[t].orw) {
        CondMono(s.objs[o].ptn, c, s.tcb[t].waiptn, s.tcb[t].orw);
      }
      FlgCore(s, o, ptn);
    }
  }

  lemma TakeFlg(s: State, r: Tid, o: nat)
    requires Core(s) && IsFlg(s, o) && r < |s.tcb|
    ensures Core(TakePattern(s, r, o))
  {
    var s1 := s.(objs := s.objs[o := FlgCb(if s.inib[o].clr then 0 else s.objs[o].ptn)]);
    ClearTaken(s, o);
    hide ReadyOk, WaitOk, OrderOk, EvtOk, OwnOk, PriOk, ObjOk, FlgCond;
    FieldCore(s1, r, s1.tcb[r].(flgptn := s.objs[o].ptn));
  }

  lemma ClearTaken(s: State, o: nat)
    requires Core(s) && IsFlg(s, o)
    ensures Core(s.(objs := s.objs[o := FlgCb(if s.inib[o].clr then 0 else s.objs[o].ptn)]))
  {
    assert ObjOk(s, o);
    hide ReadyOk, WaitOk, OrderOk, EvtOk, OwnOk, PriOk, ObjOk, FlgCond;
    forall t | t in s.wq[o] ensures t < |s.tcb| && !FlgCond(0, s.tcb[t].waiptn, s.tcb[t].orw) {
      CondZero(s.objs[o].ptn, s.tcb[t].waiptn, s.tcb[t].orw);
    }
    FlgCore(s, o, if s.inib[o].clr then 0 else s.objs[o].ptn);
  }

  /** Recording what a running task is about to wait for. */
  lemma PatternCore(s: State, r: Tid, w: bv32, orw: bool)
    requires Core(s) && r < |s.tcb| && s.tcb[r].tstat.Runnable?
    ensures Core(s.(tcb := s.tcb[r := s.tcb[r].(waiptn := w, orw := orw)]))
  {
    hide ReadyOk, WaitOk, OrderOk, EvtOk, OwnOk, PriOk, ObjOk;
    var s1 := s.(tcb := s.tcb[r := s.tcb[r].(waiptn := w, orw := orw)]);
    PatternMtx(s, r, w, orw);
    forall o | 0 <= o < |s.inib| ensures ObjOk(s1, o) {
      NotQueued(s, r, o);
      ShrunkOk(s, s1, o);
    }
    SameLinks(s, s1.tcb, {});
  }

  lemma PatternMtx(s: State, r: Tid, w: bv32, orw: bool)
    requires Shape(s) && MtxOk(s, {}, {}) && r < |s.tcb|
    ensures MtxOk(s.(tcb := s.tcb[r := s.tcb[r].(waiptn := w, orw := orw)]), {}, {})
  {
    hide OwnOk;
    SameMtx(s, s.(tcb := s.tcb[r := s.tcb[r].(waiptn := w, orw := orw)]), {}, {});
  }

  /** A runnable task is on no wait queue. */
  lemma NotQueued(s: State, r: Tid, q: nat)
    requires Links(s, {}) && r < |s.tcb| && s.tcb[r].tstat.Runnable? && q < |s.wq|
    ensures r !in s.wq[q]
  {
    hide ReadyOk, OrderOk, EvtOk;
  }

  lemma JoinFlgObj(s: State, r: Tid, o: nat, tmo: bool)
    requires Core(s) && r < |s.tcb| && s.tcb[r].tstat.Runnable? && IsFlg(s, o)
    requires !FlgCond(s.objs[o].ptn, s.tcb[r].waiptn, s.tcb[r].orw)
    requires s.inib[o].wmul || s.wq[o] == []
    ensures ObjOk(WobjMakeWait(s, r, o, tmo), o)
  {
    hide ReadyOk, WaitOk, OrderOk, EvtOk, OwnOk, PriOk, WobjMakeWait;
    assert ObjOk(s, o);
    JoinEffect(s, r, o, tmo);
  }

  lemma WaiFlgInv(s: State, r: Tid, o: nat, w: bv32, orw: bool, tmo: Tmo)
    requires Inv(s) && s.run == Some(r) && !s.intctx && (s.dspflg || tmo == Pol)
    ensures Inv(WaiFlg(s, r, o, w, orw, tmo).0)
  {
    hide ReadyOk, WaitOk, OrderOk, EvtOk, OwnOk, PriOk, ObjOk, FlgCond;
    if IsFlg(s, o) && w != 0 && (s.inib[o].wmul || s.wq[o] == []) {
      if FlgCond(s.objs[o].ptn, w, orw) {
        TakeFlg(s, r, o);
        CalmInv(s, WaiFlg(s, r, o, w, orw, tmo).0);
      } else if tmo != Pol && !s.tcb[r].waifbd {
        PatternCore(s, r, w, orw);
        var s1 := s.(tcb := s.tcb[r := s.tcb[r].(waiptn := w, orw := orw)]);
        JoinFlgObj(s1, r, o, tmo == After);
        JoinInv(s1, r, o, tmo == After);
      }
    }
  }

  lemma IniFlgInv(s: State, o: nat)
    requires Inv(s)
    ensures Inv(IniFlg(s, o).0)
  {
    hide ReadyOk, WaitOk, OrderOk, EvtOk, OwnOk, PriOk, WakeAll, ObjOk;
    if IsFlg(s, o) {
      WakeAllCore(s, o);
      var s1 := WakeAll(s, s.wq[o]);
      FlgCore(s1, o, s.inib[o].iflgptn);
      CalmInv(s, s1.(objs := s1.objs[o := FlgCb(s.inib[o].iflgptn)]));
    }
  }

  /** In the middle of set_flg: every other object is in order, and the waiting
      tasks of o not yet visited (ts) are the only ones whose condition may hold. */
  ghost predicate Walking(s: State, o: nat, ts: seq<Tid>) {
    && Good(s, {}, {}) && FlagsOk(s) && IsFlg(s, o)
    && (forall o1 :: 0 <= o1 < |s.inib| && o1 != o ==> ObjOk(s, o1))
    && s.wq[RcvQ(s, o)] == []
    && (!s.inib[o].wmul ==> |s.wq[o]| <= 1)
    && NoDup(ts) && (forall t :: t in ts ==> t in s.wq[o])
    && (forall t :: t in s.wq[o] ==> t < |s.tcb| && !FlgCond(0, s.tcb[t].waiptn, s.tcb[t].orw))
    && (forall t :: t in s.wq[o] && t !in ts ==> t < |s.tcb| && !FlgCond(s.objs[o].ptn, s.tcb[t].waiptn, s.tcb[t].orw))
  }

  lemma {:induction false} WalkCore(s: State, o: nat, ts: seq<Tid>)
    requires Walking(s, o, ts)
    ensures Core(FlgWalk(s, o, ts)) && Calm(s, FlgWalk(s, o, ts))
    decreases |ts|
  {
    hide ReadyOk, WaitOk, OrderOk, EvtOk, OwnOk, PriOk, FlgCond;
    if ts == [] {
      WalkDone(s, o);
    } else {
      var t := ts[0];
      assert t in ts;
      WalkWaiting(s, o, t);
      var v := s.tcb[t];
      if FlgCond(s.objs[o].ptn, v.waiptn, v.orw) {
        var s2 := WalkHit(s, o, ts);
        if s.inib[o].clr {
          WalkDone(s2, o);
        } else {
          WalkCore(s2, o, ts[1..]);
        }
      } else {
        WalkMiss(s, o, ts);
        WalkCore(s, o, ts[1..]);
      }
    }
  }

  lemma WalkWaiting(s: State, o: nat, t: Tid)
    requires Walking(s, o, [t]) || (Links(s, {}) && o < |s.wq| && t in s.wq[o])
    ensures t < |s.tcb| && s.tcb[t].tstat.Waiting? && WaitsOn(s.tcb[t], o)
  {
    assert t in [t];
  }

  lemma WalkDone(s: State, o: nat)
    requires Walking(s, o, [])
    ensures Core(s)
  {
    hide ReadyOk, WaitOk, OrderOk, EvtOk, OwnOk, PriOk, FlgCond;
    assert ObjOk(s, o);
  }

  lemma TailOf(ts: seq<Tid>)
    requires NoDup(ts) && ts != []
    ensures NoDup(ts[1..]) && forall t :: t in ts[1..] <==> t in ts && t != ts[0]
  {
    assert Remove(ts, ts[0]) == ts[1..];
    RemoveSpec(ts, ts[0]);
  }

  lemma WalkMiss(s: State, o: nat, ts: seq<Tid>)
    requires Walking(s, o, ts) && ts != [] && ts[0] < |s.tcb|
    requires !FlgCond(s.objs[o].ptn, s.tcb[ts[0]].waiptn, s.tcb[ts[0]].orw)
    ensures Walking(s, o, ts[1..])
  {
    hide Good, FlagsOk, ObjOk, FlgCond;
    TailOf(ts);
  }

  lemma WalkHit(s: State, o: nat, ts: seq<Tid>) returns (s2: State)
    requires Walking(s, o, ts) && ts != [] && ts[0] < |s.tcb| && WaitsOn(s.tcb[ts[0]], o)
    requires FlgCond(s.objs[o].ptn, s.tcb[ts[0]].waiptn, s.tcb[ts[0]].orw)
    ensures var v := s.tcb[ts[0]]; var ptn := s.objs[o].ptn;
      var s1 := s.(tcb := s.tcb[ts[0] := v.(flgptn := ptn)],
                   objs := s.objs[o := FlgCb(if s.inib[o].clr then 0 else ptn)]);
      s2 == Wake(s1, ts[0], E_OK)
    ensures Walking(s2, o, if s.inib[o].clr then [] else ts[1..]) && Calm(s, s2)
    ensures s2.inib == s.inib
  {
    hide ReadyOk, WaitOk, OrderOk, EvtOk, OwnOk, PriOk, FlgFalse;
    var t := ts[0];
    var ptn := s.objs[o].ptn;
    var s1 := s.(tcb := s.tcb[t := s.tcb[t].(flgptn := ptn)],
                 objs := s.objs[o := FlgCb(if s.inib[o].clr then 0 else ptn)]);
    HitGood(s, o, t);
    s2 := Wake(s1, t, E_OK);
    WakeGood(s1, t, E_OK, {}, {});
    WakeEffect(s1, t, E_OK, {});
    hide Wake, Good, ObjOk, FlgCond;
    UpdateTwice(s.tcb, t, s1.tcb[t], Woken(s1.tcb[t], E_OK));
    HitRest(s, s2, o, ts);
  }

  lemma HitGood(s: State, o: nat, t: Tid)
    requires Good(s, {}, {}) && IsFlg(s, o) && t < |s.tcb|
    ensures var s1 := s.(tcb := s.tcb[t := s.tcb[t].(flgptn := s.objs[o].ptn)],
                         objs := s.objs[o := FlgCb(if s.inib[o].clr then 0 else s.objs[o].ptn)]);
      Good(s1, {}, {})
  {
    hide ReadyOk, WaitOk, OrderOk, EvtOk, OwnOk;
    var s1 := s.(tcb := s.tcb[t := s.tcb[t].(flgptn := s.objs[o].ptn)],
                 objs := s.objs[o := FlgCb(if s.inib[o].clr then 0 else s.objs[o].ptn)]);
    SameMtx(s, s1, {}, {});
    SameLinks(s, s1.tcb, {});
  }

  lemma HitRest(s: State, s2: State, o: nat, ts: seq<Tid>)
    requires Shape(s) && Walking(s, o, ts) && ts != [] && ts[0] < |s.tcb| && WaitsOn(s.tcb[ts[0]], o)
    requires Good(s2, {}, {}) && Keeps(s, s2) && FlagsOk(s2)
    requires s2.objs == s.objs[o := FlgCb(if s.inib[o].clr then 0 else s.objs[o].ptn)]
    requires var v := s.tcb[ts[0]];
      s2.tcb == s.tcb[ts[0] := Woken(v.(flgptn := s.objs[o].ptn), E_OK)]
    requires forall q :: 0 <= q < |s.wq| ==> |s2.wq[q]| <= |s.wq[q]|
    requires forall q, u {:trigger u in s2.wq[q]} {:trigger u in s.wq[q]} :: 0 <= q < |s.wq| ==>
      (u in s2.wq[q] <==> u in s.wq[q] && !(u == ts[0] && WaitsOn(s.tcb[ts[0]], q)))
    ensures Walking(s2, o, if s.inib[o].clr then [] else ts[1..])
  {
    hide Good, FlagsOk, FlgCond;
    TailOf(ts);
    forall o1 | 0 <= o1 < |s.inib| && o1 != o ensures ObjOk(s2, o1) {
      ShrunkOk(s, s2, o1);
    }
    NoneAdded(s.wq[RcvQ(s, o)], s2.wq[RcvQ(s, o)]);
  }

  lemma NoneAdded(q: seq<Tid>, q1: seq<Tid>)
    requires q == [] && forall t :: t in q1 ==> t in q
    ensures q1 == []
  {
    NoMembers(q1);
  }

  /** set_flg leaves no task waiting whose condition holds. */
  lemma SetFlgCore(s: State, o: nat, setptn: bv32)
    requires Core(s)
    ensures Core(SetFlg(s, o, setptn).0) && Calm(s, SetFlg(s, o, setptn).0)
  {
    hide ReadyOk, WaitOk, OrderOk, EvtOk, OwnOk, PriOk, ObjOk, FlgCond;
    if IsFlg(s, o) {
      var s1 := s.(objs := s.objs[o := FlgCb(SetBits(s.objs[o].ptn, setptn))]);
      SetFlgStart(s, o, setptn);
      WalkCore(s1, o, s1.wq[o]);
    }
  }

  lemma SetFlgStart(s: State, o: nat, setptn: bv32)
    requires Core(s) && IsFlg(s, o)
    ensures Walking(s.(objs := s.objs[o := FlgCb(SetBits(s.objs[o].ptn, setptn))]), o, s.wq[o])
  {
    var s1 := s.(objs := s.objs[o := FlgCb(SetBits(s.objs[o].ptn, setptn))]);
    assert ObjOk(s, o);
    ObjMtx(s, o, s1.objs[o]);
    forall t | t in s.wq[o] ensures t < |s.tcb| && !FlgCond(0, s.tcb[t].waiptn, s.tcb[t].orw) {
      CondZero(s.objs[o].ptn, s.tcb[t].waiptn, s.tcb[t].orw);
    }
    assert NoDup(s.wq[o]);
    hide ReadyOk, WaitOk, OrderOk, EvtOk, OwnOk, PriOk, FlgCond;
    forall o1 | 0 <= o1 < |s.inib| && o1 != o ensures ObjOk(s1, o1) {
      ShrunkOk(s, s1, o1);
    }
  }
}

/** Data queues, priority data queues and fixed pools. */
module KernelData {
  import opened Lists
  import opened KernelSpec
  import opened KernelInv
  import opened KernelKeeps
  import opened KernelSteps

  lemma {:induction false} InsertItemIn(items: seq<Item>, it: Item)
    ensures |InsertItem(items, it)| == |items| + 1
    ensures forall x :: x in InsertItem(items, it) <==> x == it || x in items
  {
    if items != [] && items[0].pri <= it.pri {
      InsertItemIn(items[1..], it);
      assert items == [items[0]] + items[1..];
    }
  }

  lemma {:induction false} InsertItemSorted(items: seq<Item>, it: Item)
    requires ItemsSorted(items)
    ensures ItemsSorted(InsertItem(items, it))
  {
    if items != [] && items[0].pri <= it.pri {
      var r := items[1..];
      InsertItemSorted(r, it);
      InsertItemIn(r, it);
      var r1 := InsertItem(r, it);
      forall i | 0 <= i < |r1| ensures items[0].pri <= r1[i].pri {
        assert r1[i] in r1;
      }
    }
  }

  lemma AddItemOk(prio: bool, items: seq<Item>, it: Item)
    requires prio ==> ItemsSorted(items)
    ensures |AddItem(prio, items, it)| == |items| + 1
    ensures prio ==> ItemsSorted(AddItem(prio, items, it))
  {
    if prio {
      InsertItemIn(items, it);
      InsertItemSorted(items, it);
    }
  }

  lemma ItemCore(s: State, t: Tid, it: Item)
    requires Core(s) && t < |s.tcb|
    ensures Core(SetItem(s, t, it)) && Calm(s, SetItem(s, t, it))
  {
    hide ReadyOk, WaitOk, OrderOk, EvtOk, OwnOk, PriOk, ObjOk;
    FieldCore(s, t, s.tcb[t].(item := it));
  }

  lemma HandOverCore(s: State, o: nat, it: Item)
    requires Core(s) && IsDtq(s, o) && s.wq[RcvQ(s, o)] != []
    ensures Core(HandOver(s, o, it)) && Calm(s, HandOver(s, o, it))
  {
    hide ReadyOk, WaitOk, OrderOk, EvtOk, OwnOk, PriOk, ObjOk;
    var t := s.wq[RcvQ(s, o)][0];
    HeadWaits(s, RcvQ(s, o));
    ItemCore(s, t, it);
    WakeHeadCore(SetItem(s, t, it), RcvQ(s, o));
  }

  lemma SendCore(s: State, o: nat, it: Item)
    requires Core(s) && IsDtq(s, o)
    ensures SendData(s, o, it).Some? ==>
      Core(SendData(s, o, it).value) && Calm(s, SendData(s, o, it).value)
    ensures SendData(s, o, it).None? ==>
      |s.objs[o].items| == s.inib[o].dtqcnt && s.wq[RcvQ(s, o)] == []
  {
    assert ObjOk(s, o);
    if s.wq[RcvQ(s, o)] != [] {
      HandOverCore(s, o, it);
    } else if |s.objs[o].items| < s.inib[o].dtqcnt {
      AddItemOk(s.inib[o].prio, s.objs[o].items, it);
      ObjCore(s, o, DtqCb(AddItem(s.inib[o].prio, s.objs[o].items, it)));
    }
  }

  lemma FsndCore(s: State, o: nat, it: Item)
    requires Core(s)
    ensures Core(FsndDtq(s, o, it).0) && Calm(s, FsndDtq(s, o, it).0)
  {
    if IsDtq(s, o) && !s.inib[o].prio && s.inib[o].dtqcnt != 0 {
      assert ObjOk(s, o);
      if s.wq[RcvQ(s, o)] != [] {
        HandOverCore(s, o, it);
      } else {
        ObjCore(s, o, DtqCb(ForceItem(s.objs[o].items, s.inib[o].dtqcnt, it)));
      }
    }
  }

  lemma ReceiveCore(s: State, o: nat)
    requires Core(s) && IsDtq(s, o)
    ensures ReceiveData(s, o).Some? ==>
      Core(ReceiveData(s, o).value.0) && Calm(s, ReceiveData(s, o).value.0)
    ensures ReceiveData(s, o).None? ==> s.objs[o].items == [] && s.wq[o] == []
  {
    hide ReadyOk, WaitOk, OrderOk, EvtOk, OwnOk, PriOk, AddItem;
    assert ObjOk(s, o);
    var items := s.objs[o].items;
    if s.wq[o] != [] {
      HeadWaits(s, o);
      if items != [] {
        AddItemOk(s.inib[o].prio, items[1..], s.tcb[s.wq[o][0]].item);
        var items1 := AddItem(s.inib[o].prio, items[1..], s.tcb[s.wq[o][0]].item);
        ObjCore(s, o, DtqCb(items1));
        WakeHeadCore(SetItems(s, o, items1), o);
      } else {
        WakeHeadCore(s, o);
      }
    } else if items != [] {
      ObjCore(s, o, DtqCb(items[1..]));
    }
  }

  lemma JoinSndObj(s: State, r: Tid, o: nat, tmo: bool)
    requires Core(s) && r < |s.tcb| && s.tcb[r].tstat.Runnable? && IsDtq(s, o)
    requires |s.objs[o].items| == s.inib[o].dtqcnt && s.wq[RcvQ(s, o)] == []
    ensures ObjOk(WobjMakeWait(s, r, o, tmo), o)
  {
    hide ReadyOk, WaitOk, OrderOk, EvtOk, OwnOk, PriOk, WobjMakeWait;
    assert ObjOk(s, o);
    JoinEffect(s, r, o, tmo);
  }

  lemma JoinRcvObj(s: State, r: Tid, o: nat, tmo: bool)
    requires Core(s) && r < |s.tcb| && s.tcb[r].tstat.Runnable? && IsDtq(s, o)
    requires s.objs[o].items == [] && s.wq[o] == []
    ensures ObjOk(WobjMakeWait(s, r, RcvQ(s, o), tmo), o)
  {
    hide ReadyOk, WaitOk, OrderOk, EvtOk, OwnOk, PriOk, WobjMakeWait;
    assert ObjOk(s, o);
    JoinEffect(s, r, RcvQ(s, o), tmo);
  }

  lemma SndDtqInv(s: State, r: Tid, o: nat, it: Item, tmo: Tmo)
    requires Inv(s) && s.run == Some(r) && !s.intctx && (s.dspflg || tmo == Pol)
    ensures Inv(SndDtq(s, r, o, it, tmo).0)
  {
    hide ReadyOk, WaitOk, OrderOk, EvtOk, OwnOk, PriOk, ObjOk, SendData;
    if IsDtq(s, o) {
      SendCore(s, o, it);
      if SendData(s, o, it).Some? {
        CalmInv(s, SendData(s, o, it).value);
      } else if tmo != Pol && !s.tcb[r].waifbd {
        ItemCore(s, r, it);
        var s1 := SetItem(s, r, it);
        JoinSndObj(s1, r, o, tmo == After);
        JoinInv(s1, r, o, tmo == After);
      }
    }
  }

  lemma RcvDtqInv(s: State, r: Tid, o: nat, tmo: Tmo)
    requires Inv(s) && s.run == Some(r) && !s.intctx && (s.dspflg || tmo == Pol)
    ensures Inv(RcvDtq(s, r, o, tmo).0)
  {
    hide ReadyOk, WaitOk, OrderOk, EvtOk, OwnOk, PriOk, ObjOk, ReceiveData;
    if IsDtq(s, o) {
      ReceiveCore(s, o);
      if ReceiveData(s, o).Some? {
        var p := ReceiveData(s, o).value;
        ItemCore(p.0, r, p.1);
        CalmInv(s, SetItem(p.0, r, p.1));
      } else if tmo != Pol && !s.tcb[r].waifbd {
        JoinRcvObj(s, r, o, tmo == After);
        JoinInv(s, r, RcvQ(s, o), tmo == After);
      }
    }
  }

  lemma IniDtqInv(s: State, o: nat)
    requires Inv(s)
    ensures Inv(IniDtq(s, o).0)
  {
    hide ReadyOk, WaitOk, OrderOk, EvtOk, OwnOk, PriOk, WakeAll;
    if IsDtq(s, o) {
      WakeAllCore(s, o);
      var s1 := WakeAll(s, s.wq[o]);
      WakeAllCore(s1, RcvQ(s1, o));
      var s2 := WakeAll(s1, s1.wq[RcvQ(s1, o)]);
      ObjCore(s2, o, DtqCb([]));
      CalmInv(s, SetItems(s2, o, []));
    }
  }

  // ---- fixed pools ----------------------------------------------------------------

  /** A granted block was not allocated before, and only it changes hands. */
  lemma GetBlockOk(p: Pool, blkcnt: nat)
    requires PoolOk(p, blkcnt) && p.fblkcnt > 0
    ensures PoolOk(GetBlock(p), blkcnt)
    ensures NextBlock(p) < blkcnt && NextBlock(p) !in p.alloc
    ensures GetBlock(p).alloc == p.alloc + {NextBlock(p)}
  {
    if p.free != [] {
      assert p.free[0] in p.free;
      assert Remove(p.free, p.free[0]) == p.free[1..];
      RemoveSpec(p.free, p.free[0]);
    }
  }

  lemma RelBlockOk(p: Pool, blkcnt: nat, b: nat)
    requires PoolOk(p, blkcnt) && b in p.alloc
    ensures PoolOk(RelBlock(p, b), blkcnt) && RelBlock(p, b).alloc == p.alloc - {b}
  {
    assert b !in p.free;
    ConsNoDup(b, p.free);
  }

  lemma JoinMpfObj(s: State, r: Tid, o: nat, tmo: bool)
    requires Core(s) && r < |s.tcb| && s.tcb[r].tstat.Runnable? && IsMpf(s, o) && s.objs[o].pool.fblkcnt == 0
    ensures ObjOk(WobjMakeWait(s, r, o, tmo), o)
  {
    hide ReadyOk, WaitOk, OrderOk, EvtOk, OwnOk, PriOk, PoolOk, WobjMakeWait;
    assert ObjOk(s, o);
    JoinEffect(s, r, o, tmo);
  }

  lemma GetMpfInv(s: State, r: Tid, o: nat, tmo: Tmo)
    requires Inv(s) && s.run == Some(r) && !s.intctx && (s.dspflg || tmo == Pol)
    ensures Inv(GetMpf(s, r, o, tmo).0)
  {
    if IsMpf(s, o) {
      assert ObjOk(s, o);
      if s.objs[o].pool.fblkcnt > 0 {
        var p := s.objs[o].pool;
        GetBlockOk(p, s.inib[o].blkcnt);
        var s1 := s.(objs := s.objs[o := MpfCb(GetBlock(p))]);
        hide ReadyOk, WaitOk, OrderOk, EvtOk, OwnOk, PriOk, PoolOk, GetBlock;
        ObjCore(s, o, MpfCb(GetBlock(p)));
        ItemCore(s1, r, Item(NextBlock(p), 0));
        CalmInv(s, GetMpf(s, r, o, tmo).0);
      } else if tmo != Pol && !s.tcb[r].waifbd {
        JoinMpfObj(s, r, o, tmo == After);
        hide ReadyOk, WaitOk, OrderOk, EvtOk, OwnOk, PriOk, ObjOk;
        JoinInv(s, r, o, tmo == After);
      }
    }
  }

  lemma RelMpfInv(s: State, o: nat, b: nat)
    requires Inv(s) && !s.intctx
    ensures Inv(RelMpf(s, o, b).0)
  {
    hide ReadyOk, WaitOk, OrderOk, EvtOk, OwnOk, PriOk, PoolOk, RelBlock, WakeHead;
    if IsMpf(s, o) && b < s.objs[o].pool.unused && b in s.objs[o].pool.alloc {
      assert ObjOk(s, o);
      if s.wq[o] != [] {
        var t := s.wq[o][0];
        HeadWaits(s, o);
        ItemCore(s, t, Item(b, 0));
        WakeHeadCore(SetItem(s, t, Item(b, 0)), o);
        CalmInv(s, WakeHead(SetItem(s, t, Item(b, 0)), o));
      } else {
        RelBlockOk(s.objs[o].pool, s.inib[o].blkcnt, b);
        ObjCore(s, o, MpfCb(RelBlock(s.objs[o].pool, b)));
        CalmInv(s, RelMpf(s, o, b).0);
      }
    }
  }

  lemma IniMpfInv(s: State, o: nat)
    requires Inv(s)
    ensures Inv(IniMpf(s, o).0)
  {
    hide ReadyOk, WaitOk, OrderOk, EvtOk, OwnOk, PriOk, WakeAll;
    if IsMpf(s, o) {
      WakeAllCore(s, o);
      var s1 := WakeAll(s, s.wq[o]);
      assert ObjOk(s1, o);
      ObjCore(s1, o, MpfCb(NewPool(s.inib[o].blkcnt)));
      CalmInv(s, s1.(objs := s1.objs[o := MpfCb(NewPool(s.inib[o].blkcnt))]));
    }
  }
}
