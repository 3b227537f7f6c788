/** What the calls on objects give and take: who becomes the owner of a mutex, who gets which
    data or block, and that the blocks of a pool are never handed out twice over whole runs. */
module KernelObjects {
  import opened Lists
  import opened KernelSpec
  import opened KernelFlags
  import opened KernelInv
  import opened KernelKeeps
  import opened KernelMutex
  import opened KernelSteps
  import opened KernelTasks
  import opened KernelSync
  import opened KernelData
  import opened KernelRest
  import opened KernelResults
  import opened KernelEnds

  // ---- mutexes ------------------------------------------------------------------------------------

  /** The task that waits first, if any. */
  function Foremost(q: seq<Tid>): Option<Tid> {
    if q == [] then None else Some(q[0])
  }

  /** If asked for, t stands last in the queue. */
  predicate Last(q: seq<Tid>, t: Tid, asked: bool) {
    asked ==> q != [] && q[|q| - 1] == t
  }

  /** loc_mtx of a free mutex: the caller owns it, and no other task or object changes. */
  lemma Locking(s: State, r: Tid, m: nat, tmo: Tmo)
    requires Inv(s) && s.run == Some(r) && LocMtx(s, r, m, tmo).1 == E_OK
    ensures m < |s.inib| && r < |s.tcb|
    ensures var s1 := LocMtx(s, r, m, tmo).0;
      && s.objs[m] == MtxCb(None) && s1.objs == s.objs[m := MtxCb(Some(r))] && |s1.tcb| == |s.tcb|
      && s1.tcb[r] == s.tcb[r].(held := [m] + s.tcb[r].held, pri := s1.tcb[r].pri)
      && (forall t :: 0 <= t < |s.tcb| && t != r ==> s1.tcb[t] == s.tcb[t])
      && s1.evts == s.evts && s1.wq == s.wq
  {
    hide ReadyOk, WaitOk, OrderOk, EvtOk, OwnOk, PriOk, ObjOk, MutexAcquire, WobjMakeWait;
    AcquireForm(s, r, m);
  }

  /** The task is runnable, so no wait queue depends on its priority. */
  lemma AcquireForm(s: State, r: Tid, m: nat)
    requires Shape(s) && r < |s.tcb| && s.tcb[r].tstat.Runnable? && IsMtx(s, m)
    ensures var s1 := MutexAcquire(s, r, m);
      && s1.objs == s.objs[m := MtxCb(Some(r))] && |s1.tcb| == |s.tcb| && s1.evts == s.evts && s1.wq == s.wq
      && s1.tcb[r] == s.tcb[r].(held := [m] + s.tcb[r].held, pri := s1.tcb[r].pri)
      && (forall t :: 0 <= t < |s.tcb| && t != r ==> s1.tcb[t] == s.tcb[t])
  {
    hide ChangePriority;
    var s1 := SetHeld(SetOwner(s, m, Some(r)), r, [m] + s.tcb[r].held);
    if IsCeil(s.inib, m) {
      ChangeForm(s1, r, Ceil(s.inib, m), true);
    }
  }

  /** unl_mtx hands the mutex to the task that waits first, whose wait ends (see WaitEnds), and
      frees it if no one waits; no other mutex changes hands. */
  lemma Unlocking(s: State, r: Tid, m: nat)
    requires Inv(s) && s.run == Some(r) && !s.intctx && UnlMtx(s, r, m).1 == E_OK
    ensures m < |s.inib| && r < |s.tcb|
    ensures var s1 := UnlMtx(s, r, m).0; var heir := Foremost(s.wq[m]);
      && s.objs[m] == MtxCb(Some(r)) && s1.objs == s.objs[m := MtxCb(heir)] && |s1.tcb| == |s.tcb|
      && s1.tcb[r].held == Remove(s.tcb[r].held, m)
      && |s1.ready| == 16
      && (heir.Some? ==>
            && heir.value < |s.tcb| && s1.tcb[heir.value].held == s.tcb[heir.value].held + [m]
            && Last(s1.ready[s1.tcb[heir.value].pri], heir.value, s1.tcb[heir.value].tstat.Runnable?))
      && (forall t :: 0 <= t < |s.tcb| && t != r && Some(t) != heir ==> s1.tcb[t] == s.tcb[t])
  {
    hide ReadyOk, WaitOk, OrderOk, EvtOk, OwnOk, PriOk, ObjOk, MutexRelease, Unhold, Remove, CalcPri;
    var s1 := Unhold(s, r, m);
    UnholdForm(s, r, m);
    if s.wq[m] != [] {
      HeadWaits(s, m);
      ReleaseForm(s1, m);
    } else {
      ReleasedFree(s1, m);
    }
  }

  /** Every mutex of ms goes to the task that waits first for it. */
  ghost predicate Inherited(s: State, s1: State, ms: seq<nat>) {
    && |s1.objs| == |s.objs| == |s.inib| && |s.wq| == 2 * |s.inib|
    && forall m :: 0 <= m < |s.inib| ==> s1.objs[m] == if m in ms then MtxCb(Foremost(s.wq[m])) else s.objs[m]
  }

  lemma {:induction false} ReleaseAllInherited(s: State, u: Tid, ex: set<Tid>)
    requires Good(s, ex, {}) && ObjsOk(s) && u < |s.tcb| && u in ex
    ensures Inherited(s, ReleaseAll(s, u, s.tcb[u].held), s.tcb[u].held)
    decreases |s.tcb[u].held|
  {
    hide ReadyOk, WaitOk, OrderOk, EvtOk, OwnOk, PriOk, ObjOk, MutexRelease;
    var ms := s.tcb[u].held;
    if ms != [] {
      HeldOnce(s, u);
      PopGood(s, u, ex);
      var s1 := SetHeld(s, u, ms[1..]);
      ReleaseGood(s1, ms[0], ex);
      ReleaseOwner(s1, ms[0], ex);
      var s2 := MutexRelease(s1, ms[0]);
      ReleaseAllInherited(s2, u, ex);
      InheritedMore(s, s2, ReleaseAll(s, u, ms), ms);
    }
  }

  lemma ReleaseOwner(s: State, m: nat, ex: set<Tid>)
    requires Links(s, ex) && IsMtx(s, m)
    ensures var s1 := MutexRelease(s, m);
      && s1.objs == s.objs[m := MtxCb(Foremost(s.wq[m]))] && s1.inib == s.inib && |s1.wq| == |s.wq|
      && forall q :: 0 <= q < |s.wq| && q != m ==> s1.wq[q] == s.wq[q]
  {
    hide ReadyOk, OrderOk, EvtOk, MutexRelease, Remove;
    if s.wq[m] != [] {
      assert s.wq[m][0] in s.wq[m];
      ReleaseForm(s, m);
    } else {
      ReleasedFree(s, m);
    }
  }

  lemma InheritedMore(s: State, s2: State, s3: State, ms: seq<nat>)
    requires ms != [] && NoDup(ms) && |s.objs| == |s.inib| && |s.wq| == 2 * |s.inib|
    requires ms[0] < |s.inib| && s2.inib == s.inib && |s2.wq| == |s.wq|
    requires s2.objs == s.objs[ms[0] := MtxCb(Foremost(s.wq[ms[0]]))]
    requires forall q :: 0 <= q < |s.wq| && q != ms[0] ==> s2.wq[q] == s.wq[q]
    requires Inherited(s2, s3, ms[1..])
    ensures Inherited(s, s3, ms)
  {
    TailOf(ms);
    assert forall m :: m in ms <==> m == ms[0] || m in ms[1..];
  }

  /** The mutexes of u, but no other object, have gone to those who wait first for them. */
  ghost predicate HandedOn(s: State, s1: State, u: Tid) {
    && u < |s.tcb| && |s1.objs| == |s.objs| == |s.inib| && |s.wq| == 2 * |s.inib|
    && forall m :: 0 <= m < |s.inib| ==>
         s1.objs[m] == if m in s.tcb[u].held then MtxCb(Foremost(Remove(s.wq[m], u))) else s.objs[m]
  }

  lemma EndInherited(s: State, u: Tid)
    requires Core(s) && u < |s.tcb| && !s.tcb[u].tstat.Dormant?
    ensures HandedOn(s, Settle(Finish(Detach(s, u), u)), u)
  {
    hide ReadyOk, WaitOk, OrderOk, EvtOk, OwnOk, PriOk, ObjOk, ReleaseAll, Detach, Remove;
    DetachGood(s, u);
    DetachedQueues(s, u);
    DetachObjs(s, u);
    ReleaseAllInherited(Detach(s, u), u, {u});
  }

  lemma DetachObjs(s: State, u: Tid)
    requires Shape(s) && u < |s.tcb|
    ensures Detach(s, u).objs == s.objs && Detach(s, u).inib == s.inib
  {
  }

  /** ter_tsk and ext_tsk: each mutex the ended task held goes to the task that waits first for
      it, or is free; the other objects stay as they are. */
  lemma EndHandsOver(s: State, r: Tid, t: Tid)
    requires Inv(s) && s.run == Some(r)
    ensures HandedOn(s, ExtTsk(s, r).0, r)
    ensures TerTsk(s, r, t).1 == E_OK ==> HandedOn(s, TerTsk(s, r, t).0, t)
  {
    hide ReadyOk, WaitOk, OrderOk, EvtOk, OwnOk, PriOk, ObjOk, Finish, Remove;
    if t < |s.tcb| && !s.tcb[t].tstat.Dormant? {
      EndInherited(s, t);
    }
    var s1 := s.(disdsp := false, ipmflg := true, dspflg := true);
    FlagsCore(s, s1);
    EndInherited(s1, r);
    assert Detach(s1, r) == MakeNonRunnable(s1, r);
  }

  /** ini_mtx leaves the mutex free. */
  lemma IniFrees(s: State, m: nat)
    requires Inv(s) && IsMtx(s, m)
    ensures var s1 := IniMtx(s, m).0; s1.objs == s.objs[m := MtxCb(None)] && |s1.wq| == |s.wq| && s1.wq[m] == []
  {
    hide ReadyOk, WaitOk, OrderOk, EvtOk, OwnOk, PriOk, WakeAll, Unhold, MtxOk;
    WakeAllCore(s, m);
    var s1 := WakeAll(s, s.wq[m]);
    StripCore(s1, m);
    var u := s1.objs[m].loctsk;
    if u.Some? && u.value < |s1.tcb| {
      UnholdObjs(s1, u.value, m);
      UnholdEffect2(s1, u.value, m);
    } else {
      OwnerIsTask(s1, m);
      assert s.objs[m := MtxCb(None)] == s.objs;
    }
  }

  lemma OwnerIsTask(s: State, m: nat)
    requires Core(s) && IsMtx(s, m)
    ensures s.objs[m].loctsk.Some? ==> s.objs[m].loctsk.value < |s.tcb|
  {
    hide ReadyOk, WaitOk, OrderOk, EvtOk, PriOk, ObjOk;
  }

  lemma UnholdObjs(s: State, u: Tid, m: nat)
    requires Shape(s) && u < |s.tcb| && IsMtx(s, m)
    ensures Unhold(s, u, m).objs == s.objs
  {
    hide ChangePriority, CalcPri, Remove;
    var s1 := SetHeld(s, u, Remove(s.tcb[u].held, m));
    ChangeForm(s1, u, CalcPri(s1.inib, s1.tcb[u].bpri, s1.tcb[u].held), true);
  }

  // ---- event flags --------------------------------------------------------------------------------

  /** wai_flg that returns at once: the caller gets the pattern as it was, which is cleared with
      TA_CLR; nothing else changes. */
  lemma FlagTaken(s: State, r: Tid, o: nat, waiptn: bv32, orw: bool, tmo: Tmo)
    requires Inv(s) && r < |s.tcb| && WaiFlg(s, r, o, waiptn, orw, tmo).1 == E_OK
    ensures o < |s.inib| && IsFlg(s, o)
    ensures var s1 := WaiFlg(s, r, o, waiptn, orw, tmo).0; var ptn := s.objs[o].ptn;
      && Meets(ptn, waiptn, orw)
      && s1 == s.(tcb := s.tcb[r := s.tcb[r].(flgptn := ptn)], objs := s1.objs)
      && (s.inib[o].clr ==> s1.objs == s.objs[o := FlgCb(0)]) && (!s.inib[o].clr ==> s1.objs == s.objs)
  {
    hide ReadyOk, WaitOk, OrderOk, EvtOk, OwnOk, PriOk, ObjOk, FlgCond, WobjMakeWait, Meets;
    CondMeets(s.objs[o].ptn, waiptn, orw);
    assert s.objs[o := s.objs[o]] == s.objs;
  }

  /** clr_flg keeps the bits of its argument and changes nothing else. */
  lemma FlagMasked(s: State, o: nat, clrptn: bv32)
    requires Shape(s) && IsFlg(s, o)
    ensures var (s1, er) := ClrFlg(s, o, clrptn);
      er == E_OK && Shape(s1) && s1 == s.(objs := s.objs[o := s1.objs[o]]) && Masked(s1.objs[o].ptn, s.objs[o].ptn, clrptn)
  {
    hide ClearBits, Masked;
    BitsMasked(s.objs[o].ptn, clrptn);
  }

  // ---- data queues --------------------------------------------------------------------------------

  /** items1 is items with it added: at the end or, for a priority data queue, in order of
      priority after its equals. */
  ghost predicate Added(prio: bool, items: seq<Item>, it: Item, items1: seq<Item>) {
    if prio then
      ItemsSorted(items1) && forall p: int :: Of(items1, p) == Of(items, p) + (if it.pri == p then [it] else [])
    else items1 == items + [it]
  }

  lemma AddItemIs(prio: bool, items: seq<Item>, it: Item)
    requires prio ==> ItemsSorted(items)
    ensures Added(prio, items, it, AddItem(prio, items, it))
  {
    hide Of, InsertItem, ItemsSorted;
    if prio {
      InsertItemSorted(items, it);
      forall p: int ensures Of(InsertItem(items, it), p) == Of(items, p) + (if it.pri == p then [it] else []) {
        OfInsert(items, it, p);
      }
    }
  }

  /** The data has been sent: to the task that waits first to receive, or into the queue. */
  ghost predicate Delivered(s: State, s1: State, o: nat, it: Item, forced: bool)
    requires Shape(s) && IsDtq(s, o)
  {
    && |s1.tcb| == |s.tcb| && Shape(s1) && s1.inib == s.inib
    && var q := s.wq[|s.inib| + o]; var items := s.objs[o].items;
      if q != [] then
        && q[0] < |s.tcb| && s1.tcb[q[0]].item == it && s1.tcb[q[0]].wercd == E_OK && !s1.tcb[q[0]].tstat.Waiting?
        && (forall t :: 0 <= t < |s.tcb| && t != q[0] ==> s1.tcb[t] == s.tcb[t])
        && s1.objs == s.objs && s1.wq[|s.inib| + o] == Remove(q, q[0])
      else
        && s1.tcb == s.tcb && s1.wq == s.wq && s1.objs == s.objs[o := s1.objs[o]]
        && if |items| < s.inib[o].dtqcnt then Added(s.inib[o].prio, items, it, s1.objs[o].items)
           else forced && s1.objs[o].items == (items + [it])[1..]
  }

  lemma SendDelivers(s: State, o: nat, it: Item)
    requires Core(s) && IsDtq(s, o)
    ensures SendData(s, o, it).Some? ==> Delivered(s, SendData(s, o, it).value, o, it, false)
    ensures !s.inib[o].prio && s.inib[o].dtqcnt > 0 ==> Delivered(s, ForceSendData(s, o, it), o, it, true)
  {
    hide ReadyOk, WaitOk, OrderOk, EvtOk, OwnOk, PriOk, WakeHead, AddItem, Added, Remove;
    assert ObjOk(s, o);
    if s.wq[RcvQ(s, o)] != [] {
      HeadWaits(s, RcvQ(s, o));
      HandDelivers(s, o, it);
    } else {
      StoreDelivers(s, o, it);
    }
  }

  lemma StoreDelivers(s: State, o: nat, it: Item)
    requires Shape(s) && IsDtq(s, o) && s.wq[RcvQ(s, o)] == [] && |s.objs[o].items| <= s.inib[o].dtqcnt
    requires s.inib[o].prio ==> ItemsSorted(s.objs[o].items)
    ensures SendData(s, o, it).Some? ==> Delivered(s, SendData(s, o, it).value, o, it, false)
    ensures !s.inib[o].prio && s.inib[o].dtqcnt > 0 ==> Delivered(s, ForceSendData(s, o, it), o, it, true)
  {
    hide AddItem, Of, ItemsSorted;
    AddItemIs(s.inib[o].prio, s.objs[o].items, it);
  }

  lemma HandDelivers(s: State, o: nat, it: Item)
    requires Core(s) && IsDtq(s, o) && s.wq[RcvQ(s, o)] != [] && s.wq[RcvQ(s, o)][0] < |s.tcb|
    ensures Delivered(s, HandOver(s, o, it), o, it, false) && Delivered(s, HandOver(s, o, it), o, it, true)
  {
    hide ReadyOk, WaitOk, OrderOk, EvtOk, OwnOk, PriOk, ObjOk, Added, Remove;
    var q := RcvQ(s, o);
    var t := s.wq[q][0];
    HeadWaits(s, q);
    ItemCore(s, t, it);
    WakeQueue(SetItem(s, t, it), t, E_OK, q);
  }

  /** The data queue and the data of a sending call. */
  function Sending(op: Op): Option<(nat, Item)> {
    match op
    case Data(d) => if d.OpSndDtq? || d.OpPsndDtq? || d.OpFsndDtq? then Some((d.o, d.it)) else None
    case Int(i) => if i.OpIpsndDtq? || i.OpIfsndDtq? then Some((i.o, i.it)) else None
    case Sync(_) => None
    case Manage(_) => None
    case IntEnter => None
  }

  predicate ByForce(op: Op) {
    (op.Data? && op.d.OpFsndDtq?) || (op.Int? && op.i.OpIfsndDtq?)
  }

  /** Whenever a sending call of any form returns E_OK, the data has been delivered, but for
      forced sending to a queue without capacity. */
  lemma SentIsDelivered(s: State, op: Op)
    requires Inv(s) && Sending(op).Some? && Step(s, op).1 == E_OK
    ensures Shape(s) && IsDtq(s, Sending(op).value.0)
    ensures var (o, it) := Sending(op).value;
      (ByForce(op) ==> s.inib[o].dtqcnt > 0) ==> Delivered(s, Step(s, op).0, o, it, ByForce(op))
  {
    hide ReadyOk, WaitOk, OrderOk, EvtOk, OwnOk, PriOk, ObjOk, SendData, ForceSendData, WobjMakeWait, Delivered, Settle;
    var (o, it) := Sending(op).value;
    if IsDtq(s, o) {
      SendDelivers(s, o, it);
      SettledDelivers(s, o, it);
    }
  }

  lemma SettledDelivers(s: State, o: nat, it: Item)
    requires Core(s) && IsDtq(s, o)
    ensures SendData(s, o, it).Some? ==> Delivered(s, Settle(SendData(s, o, it).value), o, it, false)
    ensures !s.inib[o].prio && s.inib[o].dtqcnt > 0 ==> Delivered(s, Settle(ForceSendData(s, o, it)), o, it, true)
  {
    hide ReadyOk, WaitOk, OrderOk, EvtOk, OwnOk, PriOk, ObjOk, SendData, ForceSendData, Added, Remove;
    SendDelivers(s, o, it);
  }

  /** The caller has received: the first data stored or, from a queue without capacity, that of
      the task that waits first to send; that task's data is stored in its turn, and its wait
      is over. */
  ghost predicate Received(s: State, s1: State, r: Tid, o: nat)
    requires Shape(s) && IsDtq(s, o)
  {
    && |s1.tcb| == |s.tcb| && r < |s.tcb| && Shape(s1) && s1.inib == s.inib
    && var q := s.wq[o]; var items := s.objs[o].items;
      && (q != [] ==>
            && q[0] < |s.tcb| && q[0] != r && s1.wq[o] == Remove(q, q[0])
            && s1.tcb[q[0]].wercd == E_OK && !s1.tcb[q[0]].tstat.Waiting?)
      && (items != [] || q != [])
      && s1.tcb[r] == s.tcb[r].(item := if items != [] then items[0] else s.tcb[q[0]].item)
      && (forall t :: 0 <= t < |s.tcb| && t != r && Some(t) != Foremost(q) ==> s1.tcb[t] == s.tcb[t])
      && s1.objs == s.objs[o := s1.objs[o]]
      && if items == [] then s1.objs == s.objs
         else if q == [] then s1.objs[o].items == items[1..]
         else Added(s.inib[o].prio, items[1..], s.tcb[q[0]].item, s1.objs[o].items)
  }

  /** Whenever rcv_dtq or prcv_dtq, or their pdq forms, return E_OK, the caller has received. */
  lemma ReceivedIs(s: State, r: Tid, o: nat, tmo: Tmo)
    requires Inv(s) && s.run == Some(r) && RcvDtq(s, r, o, tmo).1 == E_OK
    ensures Shape(s) && IsDtq(s, o) && Received(s, RcvDtq(s, r, o, tmo).0, r, o)
  {
    hide ReadyOk, WaitOk, OrderOk, EvtOk, OwnOk, PriOk, ObjOk, WakeHead, WobjMakeWait, AddItem, Received;
    var items := s.objs[o].items;
    if s.wq[o] != [] {
      HeadWaits(s, o);
      if items != [] {
        ReceivedTurn(s, r, o);
      } else {
        ReceivedDirect(s, r, o);
      }
    } else {
      ReceivedOnly(s, r, o);
    }
  }

  /** From a full queue: the first data is taken and the first sender's data stored. */
  lemma ReceivedTurn(s: State, r: Tid, o: nat)
    requires Core(s) && IsDtq(s, o) && r < |s.tcb| && s.tcb[r].tstat.Runnable?
    requires s.wq[o] != [] && s.objs[o].items != [] && s.wq[o][0] < |s.tcb|
    ensures var items := s.objs[o].items;
      var s0 := SetItems(s, o, AddItem(s.inib[o].prio, items[1..], s.tcb[s.wq[o][0]].item));
      Received(s, Settle(SetItem(WakeHead(s0, o), r, items[0])), r, o)
  {
    hide ReadyOk, WaitOk, OrderOk, EvtOk, OwnOk, PriOk, WakeHead, AddItem, Added, Remove;
    assert ObjOk(s, o);
    HeadWaits(s, o);
    var items, it := s.objs[o].items, s.tcb[s.wq[o][0]].item;
    TailSorted(s.inib[o].prio, items);
    AddItemIs(s.inib[o].prio, items[1..], it);
    HeadGone(SetItems(s, o, AddItem(s.inib[o].prio, items[1..], it)), o);
  }

  lemma ReceivedDirect(s: State, r: Tid, o: nat)
    requires Core(s) && IsDtq(s, o) && r < |s.tcb| && s.tcb[r].tstat.Runnable?
    requires s.wq[o] != [] && s.objs[o].items == [] && s.wq[o][0] < |s.tcb|
    ensures Received(s, Settle(SetItem(WakeHead(s, o), r, s.tcb[s.wq[o][0]].item)), r, o)
  {
    hide ReadyOk, WaitOk, OrderOk, EvtOk, OwnOk, PriOk, ObjOk, WakeHead, Added, Remove;
    HeadWaits(s, o);
    HeadGone(s, o);
    assert s.objs[o := s.objs[o]] == s.objs;
  }

  lemma ReceivedOnly(s: State, r: Tid, o: nat)
    requires Shape(s) && IsDtq(s, o) && r < |s.tcb| && s.wq[o] == [] && s.objs[o].items != []
    ensures Received(s, Settle(SetItem(SetItems(s, o, s.objs[o].items[1..]), r, s.objs[o].items[0])), r, o)
  {
  }

  lemma TailSorted(prio: bool, items: seq<Item>)
    requires items != [] && (prio ==> ItemsSorted(items))
    ensures prio ==> ItemsSorted(items[1..])
  {
  }

  /** The first task of a queue is gone, served. */
  lemma HeadGone(s: State, q: nat)
    requires Links(s, {}) && q < |s.wq| && s.wq[q] != []
    ensures s.wq[q][0] < |s.tcb|
    ensures var t := s.wq[q][0]; var s1 := WakeHead(s, q);
      && s1.tcb == s.tcb[t := s1.tcb[t]] && s1.tcb[t] == s.tcb[t].(wercd := E_OK, tstat := s1.tcb[t].tstat)
      && !s1.tcb[t].tstat.Waiting? && s1.objs == s.objs && s1.inib == s.inib && |s1.wq| == |s.wq|
      && forall q1 :: 0 <= q1 < |s.wq| ==> s1.wq[q1] == Remove(s.wq[q1], t)
  {
    hide ReadyOk, WaitOk, OrderOk, EvtOk, Remove;
    HeadWaits(s, q);
    var t := s.wq[q][0];
    forall q1 | 0 <= q1 < |s.wq| ensures WakeHead(s, q).wq[q1] == Remove(s.wq[q1], t) {
      WakeQueue(s, t, E_OK, q1);
    }
  }
}
