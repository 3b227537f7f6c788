/** A data queue over whole runs: what was received, followed by what is stored and what
    waiting senders offer, is what was accepted, in order, without what was withdrawn.

    Data is withdrawn when its sender stops waiting without having sent it (time-out, forced
    release, termination), when forced sending drops the oldest data of a full queue, and
    when the queue is initialized. */
module KernelFifo {
  import opened Lists
  import opened KernelSpec
  import opened KernelInv
  import opened KernelKeeps
  import opened KernelSteps
  import opened KernelSync
  import opened KernelData
  import opened KernelRun
  import opened KernelRest
  import opened KernelResults

  // ---- the history of a data queue ----------------------------------------------------------

  /** Data accepted, and whether it still counts. */
  datatype Note = Note(item: Item, kept: bool)

  datatype Ledger = Ledger(hist: seq<Note>, rcv: seq<Item>)

  function Kept(h: seq<Note>): seq<Item> {
    if h == [] then [] else (if h[0].kept then [h[0].item] else []) + Kept(h[1..])
  }

  /** The n-th data that counts does not count any more. */
  function Lose(h: seq<Note>, n: nat): seq<Note> {
    if h == [] then []
    else if !h[0].kept then [h[0]] + Lose(h[1..], n)
    else if n == 0 then [h[0].(kept := false)] + h[1..]
    else [h[0]] + Lose(h[1..], n - 1)
  }

  /** Only the first n count any more. */
  function LoseFrom(h: seq<Note>, n: nat): seq<Note> {
    if h == [] then []
    else if !h[0].kept then [h[0]] + LoseFrom(h[1..], n)
    else if n == 0 then [h[0].(kept := false)] + LoseFrom(h[1..], 0)
    else [h[0]] + LoseFrom(h[1..], n - 1)
  }

  /** Data goes in before the n-th that counts. */
  function Put(h: seq<Note>, n: nat, it: Item): seq<Note> {
    if h == [] || (h[0].kept && n == 0) then [Note(it, true)] + h
    else [h[0]] + Put(h[1..], if h[0].kept then n - 1 else n, it)
  }

  lemma KeptCons(h: seq<Note>)
    ensures h != [] ==> Kept(h) == (if h[0].kept then [h[0].item] else []) + Kept(h[1..])
    ensures h == [] ==> Kept(h) == []
  {
  }

  lemma {:induction false} KeptLose(h: seq<Note>, n: nat)
    requires n < |Kept(h)|
    ensures Kept(Lose(h, n)) == Kept(h)[..n] + Kept(h)[n + 1..]
  {
    hide Kept;
    KeptCons(h);
    if !h[0].kept {
      KeptLose(h[1..], n);
      KeptCons([h[0]] + Lose(h[1..], n));
    } else if n == 0 {
      KeptCons([h[0].(kept := false)] + h[1..]);
    } else {
      KeptLose(h[1..], n - 1);
      KeptCons([h[0]] + Lose(h[1..], n - 1));
      var r := Kept(h[1..]);
      assert ([h[0].item] + r)[..n] == [h[0].item] + r[..n - 1];
      assert ([h[0].item] + r)[n + 1..] == r[n..];
    }
  }

  lemma {:induction false} KeptLoseFrom(h: seq<Note>, n: nat)
    requires n <= |Kept(h)|
    ensures Kept(LoseFrom(h, n)) == Kept(h)[..n]
  {
    if h != [] {
      var r := LoseFrom(h, n)[1..];
      if !h[0].kept {
        KeptLoseFrom(h[1..], n);
        assert r == LoseFrom(h[1..], n);
      } else if n == 0 {
        KeptLoseFrom(h[1..], 0);
        assert r == LoseFrom(h[1..], 0);
      } else {
        KeptLoseFrom(h[1..], n - 1);
        assert r == LoseFrom(h[1..], n - 1);
      }
    }
  }

  lemma {:induction false} KeptPut(h: seq<Note>, n: nat, it: Item)
    requires n <= |Kept(h)|
    ensures Kept(Put(h, n, it)) == Kept(h)[..n] + [it] + Kept(h)[n..]
  {
    if h == [] || (h[0].kept && n == 0) {
      assert Put(h, n, it)[1..] == h;
    } else {
      var n1 := if h[0].kept then n - 1 else n;
      KeptPut(h[1..], n1, it);
      assert Put(h, n, it)[1..] == Put(h[1..], n1, it);
    }
  }

  lemma {:induction false} KeptSnoc(h: seq<Note>, it: Item)
    ensures Kept(h + [Note(it, true)]) == Kept(h) + [it]
  {
    var e := Note(it, true);
    if h == [] {
      assert h + [e] == [e];
      assert Kept([e][1..]) == [];
    } else {
      KeptSnoc(h[1..], it);
      assert (h + [e])[1..] == h[1..] + [e];
    }
  }

  // ---- what a call tells about the data queue -------------------------------------------------

  function SentBy(op: Op): Option<Item> {
    match op
    case Data(d) => if d.OpSndDtq? || d.OpPsndDtq? || d.OpFsndDtq? then Some(d.it) else None
    case Int(i) => if i.OpIpsndDtq? || i.OpIfsndDtq? then Some(i.it) else None
    case Sync(_) => None
    case Manage(_) => None
    case IntEnter => None
  }

  predicate Forced(op: Op) {
    (op.Data? && op.d.OpFsndDtq?) || (op.Int? && op.i.OpIfsndDtq?)
  }

  /** Data was accepted: sent, or its sender waits to send it.  Forced sending to a queue
      without capacity accepts nothing. */
  predicate Accepts(s: State, op: Op, er: Er, o: nat)
    requires IsDtq(s, o)
  {
    Named(op) == Some(o) && SentBy(op).Some? && (er == E_OK || er == Blocked) && (Forced(op) ==> s.inib[o].dtqcnt > 0)
  }

  predicate Reads(op: Op, er: Er, o: nat) {
    er == E_OK && op.Data? && op.d.o == o && (op.d.OpRcvDtq? || op.d.OpPrcvDtq?)
  }

  predicate Clears(op: Op, er: Er, o: nat) {
    er == E_OK && op == Data(OpIniDtq(o))
  }

  function IndexOf(q: seq<Tid>, t: Tid): nat {
    if q == [] || q[0] == t then 0 else 1 + IndexOf(q[1..], t)
  }

  /** The history after one more call. */
  ghost function Record(s: State, op: Op, o: nat, l: Ledger): Ledger
    requires Inv(s) && IsDtq(s, o)
  {
    var (s1, er) := Do(s, op);
    DoInv(s, op);
    var n, m := |l.rcv|, |s.objs[o].items|;
    if Clears(op, er, o) then Ledger(LoseFrom(l.hist, n), l.rcv)
    else if Accepts(s, op, er, o) then
      var it := SentBy(op).value;
      if s.wq[RcvQ(s, o)] != [] then
        var t := s.wq[RcvQ(s, o)][0];
        Ledger(l.hist + [Note(it, true)], if t < |s1.tcb| then l.rcv + [s1.tcb[t].item] else l.rcv)
      else if !Forced(op) then Ledger(l.hist + [Note(it, true)], l.rcv)
      else if m < s.inib[o].dtqcnt then Ledger(Put(l.hist, n + m, it), l.rcv)
      else Ledger(Put(Lose(l.hist, n), n + m - 1, it), l.rcv)
    else if Reads(op, er, o) then
      Ledger(l.hist, if s.run.Some? && s.run.value < |s1.tcb| then l.rcv + [s1.tcb[s.run.value].item] else l.rcv)
    else if LeaverIn(s, op).Some? && LeaverIn(s, op).value in s.wq[o] then
      Ledger(Lose(l.hist, n + m + IndexOf(s.wq[o], LeaverIn(s, op).value)), l.rcv)
    else l
  }

  /** What was received, then what the queue stands for, is what counts of the history. */
  ghost predicate Agrees(s: State, o: nat, l: Ledger)
    requires Shape(s) && IsDtq(s, o)
  {
    Kept(l.hist) == l.rcv + Fifo(s, o)
  }

  // ---- calls that do not name the queue ---------------------------------------------------------

  lemma FifoFrame(s: State, s1: State, o: nat)
    requires Shape(s) && IsDtq(s, o) && Shape(s1) && s1.inib == s.inib && |s1.tcb| == |s.tcb|
    requires s1.objs[o] == s.objs[o] && s1.wq[o] == s.wq[o]
    requires forall t :: t in s.wq[o] && t < |s.tcb| ==> s1.tcb[t].item == s.tcb[t].item
    ensures Fifo(s1, o) == Fifo(s, o)
  {
    OfferedFrame(s.tcb, s1.tcb, s.wq[o]);
  }

  lemma {:induction false} OfferedWithout(tcb: seq<Tcb>, q: seq<Tid>, t: Tid)
    requires t in q && forall i :: 0 <= i < |q| ==> q[i] < |tcb|
    ensures IndexOf(q, t) < |Offered(tcb, q)|
    ensures var k := IndexOf(q, t); var f := Offered(tcb, q); Offered(tcb, Remove(q, t)) == f[..k] + f[k + 1..]
  {
    hide Offered;
    OfferedFirst(tcb, q[0], q[1..]);
    assert [q[0]] + q[1..] == q;
    var f := Offered(tcb, q[1..]);
    if q[0] != t {
      OfferedWithout(tcb, q[1..], t);
      OfferedFirst(tcb, q[0], Remove(q[1..], t));
      var k := IndexOf(q[1..], t);
      assert ([tcb[q[0]].item] + f)[..k + 1] == [tcb[q[0]].item] + f[..k];
      assert ([tcb[q[0]].item] + f)[k + 2..] == f[k + 1..];
    }
  }

  lemma OfferedFirst(tcb: seq<Tcb>, t: Tid, q: seq<Tid>)
    requires t < |tcb|
    ensures Offered(tcb, [t] + q) == [tcb[t].item] + Offered(tcb, q)
  {
    assert ([t] + q)[1..] == q;
  }

  lemma RestFifo(s: State, s1: State, o: nat, x: Option<Tid>)
    requires Core(s) && Core(s1) && IsFifo(s, o) && Rest(s, s1, o, x)
    ensures s1.objs[o] == s.objs[o] && IsFifo(s1, o)
    ensures Fifo(s1, o) == s.objs[o].items + Offered(s.tcb, Without(s.wq[o], x))
  {
    hide ReadyOk, OrderOk, EvtOk, OwnOk, PriOk, ObjOk;
    var q := Without(s.wq[o], x);
    if x.Some? {
      RemoveSpec(s.wq[o], x.value);
    }
    forall t | t in q && t < |s.tcb| ensures s1.tcb[t].item == s.tcb[t].item {
      assert t in s.wq[o];
    }
    OfferedFrame(s.tcb, s1.tcb, q);
  }

  /** A call about something else: the queue stays, or loses the data of the one sender the
      call takes off it. */
  lemma OtherFifo(s: State, op: Op, o: nat, l: Ledger)
    requires Inv(s) && Admits(s, op) && IsFifo(s, o) && Agrees(s, o, l) && Named(op) != Some(o)
    ensures Shape(Do(s, op).0) && IsFifo(Do(s, op).0, o) && Agrees(Do(s, op).0, o, Record(s, op, o, l))
  {
    hide ReadyOk, WaitOk, OrderOk, EvtOk, OwnOk, PriOk, ObjOk, Step, Admits, LeaverIn, Lose, Kept, Rest, Offered,
         Without, IndexOf;
    StepInv(s, op);
    StepRest(s, op, o);
    var s1 := Step(s, op).0;
    var x := LeaverIn(s, op);
    RestFifo(s, s1, o, x);
    if x.Some? && x.value in s.wq[o] {
      LostFifo(s, o, x.value, l);
    } else {
      NobodyLeft(s.wq[o], x);
    }
  }

  lemma NobodyLeft(q: seq<Tid>, x: Option<Tid>)
    requires x.Some? ==> x.value !in q
    ensures Without(q, x) == q
  {
    if x.Some? {
      RemoveAbsent(q, x.value);
    }
  }

  lemma LostFifo(s: State, o: nat, t: Tid, l: Ledger)
    requires Links(s, {}) && IsFifo(s, o) && Agrees(s, o, l) && t in s.wq[o]
    ensures Kept(Lose(l.hist, |l.rcv| + |s.objs[o].items| + IndexOf(s.wq[o], t)))
      == l.rcv + (s.objs[o].items + Offered(s.tcb, Without(s.wq[o], Some(t))))
  {
    hide ReadyOk, WaitOk, OrderOk, EvtOk, Lose, Kept, Offered, IndexOf, Remove;
    QueueBelow(s, o);
    OfferedWithout(s.tcb, s.wq[o], t);
    KeptLose(l.hist, |l.rcv| + |s.objs[o].items| + IndexOf(s.wq[o], t));
    Cut(l.rcv, s.objs[o].items, Offered(s.tcb, s.wq[o]), IndexOf(s.wq[o], t));
  }

  lemma QueueBelow(s: State, q: nat)
    requires Links(s, {}) && q < |s.wq|
    ensures forall i :: 0 <= i < |s.wq[q]| ==> s.wq[q][i] < |s.tcb|
  {
    hide ReadyOk, OrderOk, EvtOk;
    forall i | 0 <= i < |s.wq[q]| ensures s.wq[q][i] < |s.tcb| {
      assert s.wq[q][i] in s.wq[q];
    }
  }

  lemma Cut(a: seq<Item>, b: seq<Item>, c: seq<Item>, k: nat)
    requires k < |c|
    ensures var n := |a| + |b| + k; var all := a + (b + c);
      all[..n] + all[n + 1..] == a + (b + (c[..k] + c[k + 1..]))
  {
  }

  // ---- calls that name the queue ------------------------------------------------------------------

  /** Nothing happened. */
  lemma SameFifo(s: State, op: Op, o: nat, l: Ledger)
    requires Inv(s) && IsFifo(s, o) && Agrees(s, o, l) && Do(s, op).0 == s && Named(op) == Some(o)
    requires Do(s, op).1 != E_OK && Do(s, op).1 != Blocked
    ensures Record(s, op, o, l) == l
  {
    hide ReadyOk, WaitOk, OrderOk, EvtOk, OwnOk, PriOk, ObjOk, Do;
  }

  /** The data accepted is the last of the queue. */
  lemma AppendFifo(s: State, op: Op, o: nat, l: Ledger)
    requires Inv(s) && IsFifo(s, o) && Agrees(s, o, l) && Accepts(s, op, Do(s, op).1, o) && !Forced(op)
    requires s.wq[RcvQ(s, o)] == []
    requires Shape(Do(s, op).0) && IsFifo(Do(s, op).0, o) && Fifo(Do(s, op).0, o) == Fifo(s, o) + [SentBy(op).value]
    ensures Agrees(Do(s, op).0, o, Record(s, op, o, l))
  {
    hide ReadyOk, WaitOk, OrderOk, EvtOk, OwnOk, PriOk, ObjOk, Do, Kept, Fifo;
    KeptSnoc(l.hist, SentBy(op).value);
    assert l.rcv + Fifo(s, o) + [SentBy(op).value] == l.rcv + (Fifo(s, o) + [SentBy(op).value]);
  }

  /** The data accepted went to the task that waited first to receive. */
  lemma PassFifo(s: State, op: Op, o: nat, l: Ledger)
    requires Inv(s) && IsFifo(s, o) && Agrees(s, o, l) && Accepts(s, op, Do(s, op).1, o)
    requires s.wq[RcvQ(s, o)] != []
    requires var s1 := Do(s, op).0; var t := s.wq[RcvQ(s, o)][0];
      && Shape(s1) && IsFifo(s1, o) && Fifo(s, o) == [] && Fifo(s1, o) == []
      && t < |s1.tcb| && s1.tcb[t].item == SentBy(op).value
    ensures Agrees(Do(s, op).0, o, Record(s, op, o, l))
  {
    hide ReadyOk, WaitOk, OrderOk, EvtOk, OwnOk, PriOk, ObjOk, Do, Kept, Fifo;
    KeptSnoc(l.hist, SentBy(op).value);
  }

  lemma SettledFifo(s: State, o: nat)
    requires Shape(s) && IsDtq(s, o)
    ensures Fifo(Settle(s), o) == Fifo(s, o)
  {
  }

  lemma SndFifo(s: State, op: Op, o: nat, l: Ledger, it: Item, tmo: Tmo)
    requires Inv(s) && IsFifo(s, o) && Agrees(s, o, l) && !s.intctx && s.run.Some? && (MayBlock(op) ==> s.dspflg)
    requires op == Data(OpSndDtq(o, it, tmo)) || (op == Data(OpPsndDtq(o, it)) && tmo == Pol)
    ensures Shape(Do(s, op).0) && IsFifo(Do(s, op).0, o) && Agrees(Do(s, op).0, o, Record(s, op, o, l))
  {
    hide ReadyOk, WaitOk, OrderOk, EvtOk, OwnOk, PriOk, ObjOk, SndDtq, HandOver, Kept, Fifo;
    var r := s.run.value;
    DoInv(s, op);
    if s.wq[RcvQ(s, o)] != [] {
      SendHandsOver(s, o, it);
      SndPasses(s, r, o, it, tmo);
      SettledFifo(HandOver(s, o, it), o);
      PassFifo(s, op, o, l);
    } else {
      SendAppends(s, r, o, it, tmo);
      if SndDtq(s, r, o, it, tmo).1 == E_OK || SndDtq(s, r, o, it, tmo).1 == Blocked {
        AppendFifo(s, op, o, l);
      } else {
        SameFifo(s, op, o, l);
      }
    }
  }

  lemma SndPasses(s: State, r: Tid, o: nat, it: Item, tmo: Tmo)
    requires Shape(s) && r < |s.tcb| && IsFifo(s, o) && s.wq[RcvQ(s, o)] != []
    ensures SndDtq(s, r, o, it, tmo) == (Settle(HandOver(s, o, it)), E_OK)
    ensures Settle(HandOver(s, o, it)).tcb == HandOver(s, o, it).tcb
  {
  }

  lemma IpsndFifo(s: State, op: Op, o: nat, l: Ledger, it: Item)
    requires Inv(s) && IsFifo(s, o) && Agrees(s, o, l) && s.intctx && op == Int(OpIpsndDtq(o, it))
    ensures Shape(Do(s, op).0) && IsFifo(Do(s, op).0, o) && Agrees(Do(s, op).0, o, Record(s, op, o, l))
  {
    hide ReadyOk, WaitOk, OrderOk, EvtOk, OwnOk, PriOk, ObjOk, HandOver, Kept, Fifo;
    DoInv(s, op);
    if s.wq[RcvQ(s, o)] != [] {
      SendHandsOver(s, o, it);
      PassFifo(s, op, o, l);
    } else if |s.objs[o].items| < s.inib[o].dtqcnt {
      StoreAppends(s, o, it);
      AppendFifo(s, op, o, l);
    } else {
      SameFifo(s, op, o, l);
    }
  }

  /** With room, and no one waiting to receive, no one waits to send either. */
  lemma StoreAppends(s: State, o: nat, it: Item)
    requires Core(s) && IsFifo(s, o) && s.wq[RcvQ(s, o)] == [] && |s.objs[o].items| < s.inib[o].dtqcnt
    ensures SendData(s, o, it) == Some(SetItems(s, o, s.objs[o].items + [it]))
    ensures Fifo(SetItems(s, o, s.objs[o].items + [it]), o) == Fifo(s, o) + [it]
  {
    hide ReadyOk, WaitOk, OrderOk, EvtOk, OwnOk, PriOk;
    assert ObjOk(s, o);
  }

  /** Forced sending: the oldest data stored is lost when the queue is full, and the new data
      goes in after what is stored, before what waiting senders offer. */
  lemma ForceFifo(s: State, op: Op, o: nat, l: Ledger, it: Item)
    requires Inv(s) && IsFifo(s, o) && Agrees(s, o, l) && Named(op) == Some(o) && Forced(op) && SentBy(op) == Some(it)
    requires if op.Int? then s.intctx else !s.intctx && s.run.Some?
    ensures Shape(Do(s, op).0) && IsFifo(Do(s, op).0, o) && Agrees(Do(s, op).0, o, Record(s, op, o, l))
  {
    hide ReadyOk, WaitOk, OrderOk, EvtOk, OwnOk, PriOk, ObjOk, Kept, Fifo, Record, Do;
    DoInv(s, op);
    ForcedStep(s, op, o, it);
    if s.inib[o].dtqcnt == 0 {
      NotAccepted(s, op, o, l);
    } else if s.wq[RcvQ(s, o)] != [] {
      ForceHands(s, op, o, l, it);
    } else {
      ForceStores(s, op, o, l, it);
    }
  }

  lemma NotAccepted(s: State, op: Op, o: nat, l: Ledger)
    requires Inv(s) && IsFifo(s, o) && Named(op) == Some(o) && Forced(op) && s.inib[o].dtqcnt == 0
    requires LeaverIn(s, op) == None
    ensures Record(s, op, o, l) == l
  {
    hide ReadyOk, WaitOk, OrderOk, EvtOk, OwnOk, PriOk, ObjOk, Do;
  }

  lemma ForceHands(s: State, op: Op, o: nat, l: Ledger, it: Item)
    requires Inv(s) && IsFifo(s, o) && Agrees(s, o, l) && Named(op) == Some(o) && Forced(op) && SentBy(op) == Some(it)
    requires s.inib[o].dtqcnt > 0 && s.wq[RcvQ(s, o)] != [] && Shape(Do(s, op).0)
    requires Do(s, op) == if op.Int? then FsndDtq(s, o, it) else (Settle(FsndDtq(s, o, it).0), FsndDtq(s, o, it).1)
    ensures IsFifo(Do(s, op).0, o) && Agrees(Do(s, op).0, o, Record(s, op, o, l))
  {
    hide ReadyOk, WaitOk, OrderOk, EvtOk, OwnOk, PriOk, ObjOk, FsndDtq, HandOver, Kept, Fifo, Record, Do, Settle;
    ForcedIs(s, o, it);
    SendHandsOver(s, o, it);
    SettledFifo(HandOver(s, o, it), o);
    SettleTcb(HandOver(s, o, it));
    PassFifo(s, op, o, l);
  }

  lemma ForceStores(s: State, op: Op, o: nat, l: Ledger, it: Item)
    requires Inv(s) && IsFifo(s, o) && Agrees(s, o, l) && Named(op) == Some(o) && Forced(op) && SentBy(op) == Some(it)
    requires s.inib[o].dtqcnt > 0 && s.wq[RcvQ(s, o)] == [] && Shape(Do(s, op).0)
    requires Do(s, op) == if op.Int? then FsndDtq(s, o, it) else (Settle(FsndDtq(s, o, it).0), FsndDtq(s, o, it).1)
    ensures IsFifo(Do(s, op).0, o) && Agrees(Do(s, op).0, o, Record(s, op, o, l))
  {
    hide ReadyOk, WaitOk, OrderOk, EvtOk, OwnOk, PriOk, ObjOk, FsndDtq, Kept, Fifo, Do, Put, Lose, Settle;
    ForcedIs(s, o, it);
    var s1 := SetItems(s, o, ForceItem(s.objs[o].items, s.inib[o].dtqcnt, it));
    SettledFifo(s1, o);
    SettleTcb(s1);
    PutFifo(s, o, l, it);
  }

  lemma ForcedStep(s: State, op: Op, o: nat, it: Item)
    requires Inv(s) && IsFifo(s, o) && Named(op) == Some(o) && Forced(op) && SentBy(op) == Some(it)
    requires if op.Int? then s.intctx else !s.intctx && s.run.Some?
    ensures Do(s, op) == if op.Int? then FsndDtq(s, o, it) else (Settle(FsndDtq(s, o, it).0), FsndDtq(s, o, it).1)
    ensures s.inib[o].dtqcnt == 0 ==> Do(s, op).0 == s
    ensures LeaverIn(s, op) == None
  {
    hide ReadyOk, WaitOk, OrderOk, EvtOk, OwnOk, PriOk, ObjOk, HandOver, ForceSendData;
  }

  lemma SettleTcb(s: State)
    ensures Settle(s).tcb == s.tcb && Settle(s).inib == s.inib && Settle(s).objs == s.objs
  {
  }

  lemma ForcedIs(s: State, o: nat, it: Item)
    requires Shape(s) && IsFifo(s, o)
    ensures FsndDtq(s, o, it) == (
      if s.inib[o].dtqcnt == 0 then s
      else if s.wq[RcvQ(s, o)] != [] then HandOver(s, o, it)
      else SetItems(s, o, ForceItem(s.objs[o].items, s.inib[o].dtqcnt, it)), E_OK)
  {
  }

  lemma PutFifo(s: State, o: nat, l: Ledger, it: Item)
    requires Core(s) && IsFifo(s, o) && Agrees(s, o, l) && s.inib[o].dtqcnt > 0
    ensures var n, m, cap := |l.rcv|, |s.objs[o].items|, s.inib[o].dtqcnt;
      var s1 := SetItems(s, o, ForceItem(s.objs[o].items, cap, it));
      l.rcv + Fifo(s1, o) == Kept(if m < cap then Put(l.hist, n + m, it) else Put(Lose(l.hist, n), n + m - 1, it))
  {
    hide ReadyOk, WaitOk, OrderOk, EvtOk, OwnOk, PriOk, Offered, Kept, Put, Lose;
    assert ObjOk(s, o);
    PutKept(l, s.objs[o].items, Offered(s.tcb, s.wq[o]), s.inib[o].dtqcnt, it);
  }

  lemma PutKept(l: Ledger, items: seq<Item>, f: seq<Item>, cap: nat, it: Item)
    requires Kept(l.hist) == l.rcv + (items + f) && |items| <= cap && cap > 0
    ensures var n, m := |l.rcv|, |items|;
      l.rcv + (ForceItem(items, cap, it) + f)
        == Kept(if m < cap then Put(l.hist, n + m, it) else Put(Lose(l.hist, n), n + m - 1, it))
  {
    hide Kept, Put, Lose;
    var n := |l.rcv|;
    if |items| < cap {
      KeptPut(l.hist, n + |items|, it);
      InMiddle(l.rcv, items, f, it);
    } else {
      KeptLose(l.hist, n);
      DropFirst(l.rcv, items, f);
      KeptPut(Lose(l.hist, n), n + |items| - 1, it);
      InMiddle(l.rcv, items[1..], f, it);
      assert (items + [it])[1..] == items[1..] + [it];
    }
  }

  lemma InMiddle(a: seq<Item>, b: seq<Item>, c: seq<Item>, it: Item)
    ensures var n := |a| + |b|; var all := a + (b + c); all[..n] + [it] + all[n..] == a + (b + [it] + c)
  {
  }

  lemma DropFirst(a: seq<Item>, b: seq<Item>, c: seq<Item>)
    requires b != []
    ensures var n := |a|; var all := a + (b + c); all[..n] + all[n + 1..] == a + (b[1..] + c)
  {
  }

  /** Receiving. */
  lemma RcvFifo(s: State, op: Op, o: nat, l: Ledger, tmo: Tmo)
    requires Inv(s) && IsFifo(s, o) && Agrees(s, o, l) && !s.intctx && s.run.Some? && (MayBlock(op) ==> s.dspflg)
    requires op == Data(OpRcvDtq(o, tmo)) || (op == Data(OpPrcvDtq(o)) && tmo == Pol)
    ensures Shape(Do(s, op).0) && IsFifo(Do(s, op).0, o) && Agrees(Do(s, op).0, o, Record(s, op, o, l))
  {
    hide ReadyOk, WaitOk, OrderOk, EvtOk, OwnOk, PriOk, ObjOk, RcvDtq, ReceiveData, Kept, Fifo;
    var r := s.run.value;
    DoInv(s, op);
    ReceivesIff(s, o);
    if ReceiveData(s, o).Some? {
      ReceivePops(s, o);
      RcvPops(s, r, o, tmo);
      assert l.rcv + Fifo(s, o) == l.rcv + [Fifo(s, o)[0]] + Fifo(s, o)[1..];
    } else if tmo == Pol || s.tcb[r].waifbd {
      RcvFails(s, r, o, tmo);
      SameFifo(s, op, o, l);
    } else {
      RcvWaits(s, r, o, tmo);
    }
  }

  lemma ReceivesIff(s: State, o: nat)
    requires Core(s) && IsFifo(s, o)
    ensures ReceiveData(s, o).Some? <==> Fifo(s, o) != []
  {
    hide ReadyOk, OrderOk, EvtOk, OwnOk, PriOk, ObjOk, WakeHead, AddItem;
    if s.wq[o] != [] {
      HeadWaits(s, o);
    }
  }

  lemma RcvPops(s: State, r: Tid, o: nat, tmo: Tmo)
    requires Inv(s) && s.run == Some(r) && IsFifo(s, o) && ReceiveData(s, o).Some?
    ensures var (s1, it) := ReceiveData(s, o).value; var (s2, er) := RcvDtq(s, r, o, tmo);
      && er == E_OK && Shape(s1) && Shape(s2) && IsDtq(s1, o) && IsFifo(s2, o) && r < |s2.tcb| && s2.tcb[r].item == it
      && Fifo(s2, o) == Fifo(s1, o)
  {
    hide ReadyOk, WaitOk, OrderOk, EvtOk, OwnOk, PriOk, ObjOk, ReceiveData, Fifo;
    ReceiveCore(s, o);
    ReceivesInPlace(s, o);
    var s1, it := ReceiveData(s, o).value.0, ReceiveData(s, o).value.1;
    NotQueued(s1, r, o);
    FifoFrame(s1, SetItem(s1, r, it), o);
    SettledFifo(SetItem(s1, r, it), o);
    SettleTcb(SetItem(s1, r, it));
  }

  lemma ReceivesInPlace(s: State, o: nat)
    requires Shape(s) && IsDtq(s, o) && ReceiveData(s, o).Some?
    ensures Keeps(s, ReceiveData(s, o).value.0)
  {
  }

  lemma RcvFails(s: State, r: Tid, o: nat, tmo: Tmo)
    requires Shape(s) && r < |s.tcb| && IsDtq(s, o) && ReceiveData(s, o).None? && (tmo == Pol || s.tcb[r].waifbd)
    ensures RcvDtq(s, r, o, tmo).0 == s && RcvDtq(s, r, o, tmo).1 in {E_TMOUT, E_RLWAI}
  {
  }

  lemma RcvWaits(s: State, r: Tid, o: nat, tmo: Tmo)
    requires Inv(s) && s.run == Some(r) && IsFifo(s, o) && ReceiveData(s, o).None? && tmo != Pol && !s.tcb[r].waifbd
    ensures var (s1, er) := RcvDtq(s, r, o, tmo);
      && er == Blocked && Shape(s1) && IsFifo(s1, o) && Fifo(s1, o) == Fifo(s, o)
  {
    hide ReadyOk, WaitOk, OrderOk, EvtOk, OwnOk, PriOk, ObjOk, ReceiveData, Fifo, WobjMakeWait;
    var s1 := WobjMakeWait(s, r, RcvQ(s, o), tmo == After);
    JoinEffect(s, r, RcvQ(s, o), tmo == After);
    NotQueued(s, r, o);
    FifoFrame(s, s1, o);
    SettledFifo(s1, o);
    SettleTcb(s1);
  }

  /** Initialization empties the queue and turns its senders away. */
  lemma IniFifo(s: State, op: Op, o: nat, l: Ledger)
    requires Inv(s) && IsFifo(s, o) && Agrees(s, o, l) && !s.intctx && s.run.Some? && op == Data(OpIniDtq(o))
    ensures Shape(Do(s, op).0) && IsFifo(Do(s, op).0, o) && Agrees(Do(s, op).0, o, Record(s, op, o, l))
  {
    hide ReadyOk, WaitOk, OrderOk, EvtOk, OwnOk, PriOk, ObjOk, IniDtq, Kept, LoseFrom;
    DoInv(s, op);
    InitEmpties(s, o);
    KeptLoseFrom(l.hist, |l.rcv|);
  }

  lemma InitEmpties(s: State, o: nat)
    requires Core(s) && IsFifo(s, o)
    ensures var (s1, er) := IniDtq(s, o); er == E_OK && Shape(s1) && IsFifo(s1, o) && Fifo(s1, o) == []
  {
    hide ReadyOk, WaitOk, OrderOk, EvtOk, OwnOk, PriOk, ObjOk, WakeAll;
    WakeAllCore(s, o);
    var s1 := WakeAll(s, s.wq[o]);
    WakeAllCore(s1, RcvQ(s1, o));
  }

  // ---- any call, any run ------------------------------------------------------------------------------

  /** Any call, by a task or a handler, does to the queue what the history says. */
  lemma StepFifo(s: State, op: Op, o: nat, l: Ledger)
    requires Inv(s) && IsFifo(s, o) && Agrees(s, o, l)
    ensures Inv(Do(s, op).0) && IsFifo(Do(s, op).0, o) && Agrees(Do(s, op).0, o, Record(s, op, o, l))
  {
    hide ReadyOk, WaitOk, OrderOk, EvtOk, OwnOk, PriOk, ObjOk, Step, Kept, Fifo, Record, Admits;
    DoInv(s, op);
    if !Admits(s, op) {
      NotMade(s, op, o, l);
    } else if Named(op) != Some(o) {
      OtherFifo(s, op, o, l);
    } else if !ForKind(op, s.inib[o]) {
      WrongKind(s, op, o);
      SameFifo(s, op, o, l);
    } else {
      NamedFifo(s, op, o, l);
    }
  }

  lemma NotMade(s: State, op: Op, o: nat, l: Ledger)
    requires Inv(s) && IsFifo(s, o) && !Admits(s, op)
    ensures Record(s, op, o, l) == l && Do(s, op).0 == s
  {
    hide ReadyOk, WaitOk, OrderOk, EvtOk, OwnOk, PriOk, ObjOk;
  }

  lemma NamedFifo(s: State, op: Op, o: nat, l: Ledger)
    requires Inv(s) && IsFifo(s, o) && Agrees(s, o, l) && Named(op) == Some(o) && ForKind(op, s.inib[o])
    ensures Shape(Do(s, op).0) && IsFifo(Do(s, op).0, o) && Agrees(Do(s, op).0, o, Record(s, op, o, l))
  {
    hide ReadyOk, WaitOk, OrderOk, EvtOk, OwnOk, PriOk, ObjOk, Do, Kept, Fifo, Record;
    if op.Int? != s.intctx || (op.Data? && (s.run.None? || (MayBlock(op) && !s.dspflg))) {
      Refused(s, op);
      SameFifo(s, op, o, l);
    } else {
      match op
      case Int(i) =>
        if i.OpIpsndDtq? {
          IpsndFifo(s, op, o, l, i.it);
        } else {
          ForceFifo(s, op, o, l, i.it);
        }
      case Data(d) =>
        match d
        case OpSndDtq(_, it, tmo) => SndFifo(s, op, o, l, it, tmo);
        case OpPsndDtq(_, it) => SndFifo(s, op, o, l, it, Pol);
        case OpFsndDtq(_, it) => ForceFifo(s, op, o, l, it);
        case OpRcvDtq(_, tmo) => RcvFifo(s, op, o, l, tmo);
        case OpPrcvDtq(_) => RcvFifo(s, op, o, l, Pol);
        case OpIniDtq(_) => IniFifo(s, op, o, l);
    }
  }

  /** A call in the wrong context is refused. */
  lemma Refused(s: State, op: Op)
    requires Inv(s) && (op.Int? || op.Data?)
    requires op.Int? != s.intctx || (op.Data? && (s.run.None? || (MayBlock(op) && !s.dspflg)))
    ensures Do(s, op) == (s, E_CTX)
  {
    hide ReadyOk, WaitOk, OrderOk, EvtOk, OwnOk, PriOk, ObjOk, IntStep, DataStep;
  }

  ghost function History(s: State, ops: seq<Op>, o: nat, l: Ledger): Ledger
    requires Inv(s) && IsFifo(s, o) && Agrees(s, o, l)
    decreases |ops|
  {
    if ops == [] then l
    else
      StepFifo(s, ops[0], o, l);
      History(Do(s, ops[0]).0, ops[1..], o, Record(s, ops[0], o, l))
  }

  /** Over any run of calls and interrupts: the data received, followed by the data stored and
      the data waiting senders offer, is the data accepted, in order, without the data that
      was withdrawn. */
  lemma {:induction false} RunIsFifo(s: State, ops: seq<Op>, o: nat, l: Ledger)
    requires Inv(s) && IsFifo(s, o) && Agrees(s, o, l)
    ensures var s1 := Run(s, ops); var l1 := History(s, ops, o, l);
      IsFifo(s1, o) && Kept(l1.hist) == l1.rcv + Fifo(s1, o)
    decreases |ops|
  {
    hide ReadyOk, WaitOk, OrderOk, EvtOk, OwnOk, PriOk, ObjOk, Do, Record, Kept, Fifo;
    if ops != [] {
      StepFifo(s, ops[0], o, l);
      RunIsFifo(Do(s, ops[0]).0, ops[1..], o, Record(s, ops[0], o, l));
    }
  }

  /** From start-up there is nothing to agree on but the empty history. */
  lemma StartsEmpty(cfg: seq<TaskCfg>, inib: seq<Inib>, acts: seq<Tid>, o: nat)
    requires CfgOk(cfg, inib, acts) && o < |inib| && inib[o].DtqInib?
    ensures var s := Boot(cfg, inib, acts); Inv(s) && IsDtq(s, o) && Agrees(s, o, Ledger([], []))
  {
    hide ReadyOk, WaitOk, OrderOk, EvtOk, OwnOk, PriOk, ObjOk, CfgOk;
    BootInv(cfg, inib, acts);
    StartKeeps(Blank(cfg, inib), acts);
  }

  /** So over every run from every start-up, with the whole history known. */
  lemma FifoFromStart(cfg: seq<TaskCfg>, inib: seq<Inib>, acts: seq<Tid>, ops: seq<Op>, o: nat)
    requires CfgOk(cfg, inib, acts) && o < |inib| && inib[o].DtqInib? && !inib[o].tpri && !inib[o].prio
    ensures var s := Boot(cfg, inib, acts);
      && Inv(s) && IsFifo(s, o) && Agrees(s, o, Ledger([], []))
      && (var s1 := Run(s, ops); var l1 := History(s, ops, o, Ledger([], []));
          IsFifo(s1, o) && Kept(l1.hist) == l1.rcv + Fifo(s1, o))
  {
    hide ReadyOk, WaitOk, OrderOk, EvtOk, OwnOk, PriOk, ObjOk, CfgOk, Agrees, Run, History, Kept, Fifo, StartAll;
    StartsEmpty(cfg, inib, acts, o);
    StartKeeps(Blank(cfg, inib), acts);
    RunIsFifo(Boot(cfg, inib, acts), ops, o, Ledger([], []));
  }

  lemma {:induction false} StartKeeps(s: State, ts: seq<Tid>)
    requires Shape(s)
    ensures StartAll(s, ts).inib == s.inib && StartAll(s, ts).objs == s.objs && StartAll(s, ts).wq == s.wq
    decreases |ts|
  {
    if ts != [] && ts[0] < |s.tcb| {
      StartKeeps(MakeActive(s, ts[0]), ts[1..]);
    }
  }
}
