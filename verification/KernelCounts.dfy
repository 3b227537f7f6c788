/** Conservation of semaphore counts over whole runs.

    The ledger of a run is kept from what callers see: which signals returned E_OK, which
    requests returned E_OK at once, and which waits ended with E_OK. */
module KernelCounts {
  import opened Lists
  import opened KernelSpec
  import opened KernelInv
  import opened KernelKeeps
  import opened KernelSteps
  import opened KernelRun
  import opened KernelRest

  // ---- the ledger -------------------------------------------------------------------------

  /** The step from s to s1 ended the wait of t on o with E_OK. */
  ghost predicate Gets(s: State, s1: State, o: nat, t: Tid) {
    t < |s.tcb| && t < |s1.tcb| && WaitsOn(s.tcb[t], o) && s1.tcb[t] == Woken(s.tcb[t], E_OK)
  }

  ghost function Served(s: State, s1: State, o: nat): set<Tid> {
    set t | 0 <= t < |s.tcb| && Gets(s, s1, o, t)
  }

  predicate Signals(op: Op, er: Er, o: nat) {
    er == E_OK && (op == Sync(OpSigSem(o)) || op == Int(OpISigSem(o)))
  }

  predicate Takes(op: Op, er: Er, o: nat) {
    er == E_OK && op.Sync? && ((op.y.OpWaiSem? && op.y.o == o) || op.y == OpPolSem(o))
  }

  predicate Resets(op: Op, er: Er, o: nat) {
    er == E_OK && op == Sync(OpIniSem(o))
  }

  /** The balance of o after one more call. */
  ghost function Entry(s: State, op: Op, o: nat, n: int): int
    requires Shape(s) && IsSem(s, o)
  {
    var (s1, er) := Do(s, op);
    if Resets(op, er, o) then s.inib[o].isemcnt
    else n + (if Signals(op, er, o) then 1 else 0) - (if Takes(op, er, o) then 1 else 0) - |Served(s, s1, o)|
  }

  ghost function Tally(s: State, ops: seq<Op>, o: nat, n: int): int
    requires Inv(s) && IsSem(s, o)
    decreases |ops|
  {
    if ops == [] then n
    else
      StepCounts(s, ops[0], o);
      Tally(Do(s, ops[0]).0, ops[1..], o, Entry(s, ops[0], o, n))
  }

  // ---- steps that do not name o -----------------------------------------------------------

  /** The step leaves the count alone and serves no one. */
  ghost predicate Quiet(s: State, s1: State, o: nat) {
    && s1.inib == s.inib && o < |s.objs| && |s1.objs| == |s.objs| && s1.objs[o] == s.objs[o]
    && Served(s, s1, o) == {}
  }

  lemma RestQuiet(s: State, s1: State, o: nat, x: Option<Tid>)
    requires LeftAlone(s, s1, o, x)
    ensures Quiet(s, s1, o)
  {
    forall t | 0 <= t < |s.tcb| ensures !Gets(s, s1, o, t) {
      if WaitsOn(s.tcb[t], o) {
        assert OnIt(s, s.tcb[t], o);
      }
    }
  }

  // ---- the semaphore itself ---------------------------------------------------------------

  /** The balance of one call on o itself. */
  ghost predicate Balanced(s: State, p: (State, Er), op: Op, o: nat)
    requires Shape(s) && IsSem(s, o)
  {
    && p.0.inib == s.inib && |p.0.objs| == |s.objs| && p.0.objs[o].SemCb?
    && p.0.objs[o].semcnt ==
         if Resets(op, p.1, o) then s.inib[o].isemcnt
         else s.objs[o].semcnt + (if Signals(op, p.1, o) then 1 else 0)
              - (if Takes(op, p.1, o) then 1 else 0) - |Served(s, p.0, o)|
  }

  /** A signal serves the head of the queue, and only it, or is counted. */
  lemma SigBalance(s: State, op: Op, o: nat)
    requires Links(s, {}) && IsSem(s, o) && (op == Sync(OpSigSem(o)) || op == Int(OpISigSem(o)))
    ensures Balanced(s, SigSem(s, o), op, o) && Balanced(s, Then(SigSem(s, o)), op, o)
    ensures Served(s, SigSem(s, o).0, o) == if s.wq[o] != [] then {s.wq[o][0]} else {}
    ensures SigSem(s, o).1 == E_QOVR <==> s.wq[o] == [] && s.objs[o].semcnt >= s.inib[o].maxsem
  {
    hide ReadyOk, WaitOk, OrderOk, EvtOk, Balanced;
    var s1 := SigSem(s, o).0;
    if s.wq[o] != [] {
      HeadServed(s, o);
    } else {
      RestServes(s, s1, o);
    }
    SigBalanced(s, s1, op, o);
  }

  lemma HeadServed(s: State, o: nat)
    requires Links(s, {}) && IsSem(s, o) && s.wq[o] != []
    ensures Served(s, WakeHead(s, o), o) == {s.wq[o][0]}
    ensures Keeps(s, WakeHead(s, o)) && WakeHead(s, o).objs == s.objs
  {
    hide ReadyOk, WaitOk, OrderOk, EvtOk;
    HeadWaits(s, o);
    WakeEffect(s, s.wq[o][0], E_OK, {});
  }

  lemma RestServes(s: State, s1: State, o: nat)
    requires s1.tcb == s.tcb
    ensures Served(s, s1, o) == {}
  {
  }

  lemma SigBalanced(s: State, s1: State, op: Op, o: nat)
    requires Shape(s) && IsSem(s, o) && (op == Sync(OpSigSem(o)) || op == Int(OpISigSem(o)))
    requires s1 == SigSem(s, o).0 && s1.inib == s.inib && |s1.objs| == |s.objs|
    requires |Served(s, s1, o)| == if s.wq[o] != [] then 1 else 0
    requires s.wq[o] != [] ==> s1.objs == s.objs
    ensures Balanced(s, SigSem(s, o), op, o) && Balanced(s, Then(SigSem(s, o)), op, o)
  {
    hide WakeHead;
    assert Served(s, Settle(s1), o) == Served(s, s1, o);
  }

  lemma WaiBalance(s: State, r: Tid, op: Op, o: nat, tmo: Tmo)
    requires Shape(s) && r < |s.tcb| && s.tcb[r].tstat.Runnable? && IsSem(s, o)
    requires op == Sync(OpWaiSem(o, tmo)) || (op == Sync(OpPolSem(o)) && tmo == Pol)
    ensures Balanced(s, WaiSem(s, r, o, tmo), op, o)
  {
    hide MakeWait, WobjMakeWait, Settle, Served;
    RestServes(s, s, o);
    JoinServes(s, r, o, tmo == After);
    if s.objs[o].semcnt >= 1 {
      RestServes(s, WaiSem(s, r, o, tmo).0, o);
    }
  }

  lemma JoinServes(s: State, r: Tid, o: nat, tmo: bool)
    requires Shape(s) && r < |s.tcb| && s.tcb[r].tstat.Runnable? && IsSem(s, o)
    ensures var s1 := Settle(WobjMakeWait(s, r, o, tmo));
      Served(s, s1, o) == {} && s1.inib == s.inib && s1.objs == s.objs
  {
    hide InsertTpri, Remove;
    var s1 := Settle(WobjMakeWait(s, r, o, tmo));
    forall t | 0 <= t < |s.tcb| ensures !Gets(s, s1, o, t) {
      if t != r {
        assert s1.tcb[t] == s.tcb[t];
      }
    }
  }

  lemma IniBalance(s: State, o: nat)
    requires Inv(s) && IsSem(s, o)
    ensures Balanced(s, IniSem(s, o), Sync(OpIniSem(o)), o)
  {
    hide ReadyOk, WaitOk, OrderOk, EvtOk, ObjOk, OwnOk, PriOk, WakeAll;
    WakeAllCore(s, o);
  }

  /** The calls that signal, request or initialize o. */
  predicate Concerns(op: Op, o: nat) {
    match op
    case Sync(y) => y.o == o && (y.OpSigSem? || y.OpWaiSem? || y.OpPolSem? || y.OpIniSem?)
    case Int(i) => i == OpISigSem(o)
    case Data(_) => false
    case Manage(_) => false
    case IntEnter => false
  }

  /** One call of any kind, anywhere, changes the count of o by what its callers see. */
  lemma StepCounts(s: State, op: Op, o: nat)
    requires Inv(s) && IsSem(s, o)
    ensures Do(s, op).0.inib == s.inib && Inv(Do(s, op).0)
    ensures Do(s, op).0.objs[o].semcnt == Entry(s, op, o, s.objs[o].semcnt)
  {
    hide ReadyOk, WaitOk, OrderOk, EvtOk, OwnOk, PriOk, ObjOk, Served, Step, Admits;
    DoInv(s, op);
    if Admits(s, op) {
      StepBalanced(s, op, o);
    } else {
      SameBalanced(s, E_SYS, op, o);
    }
  }

  lemma SameBalanced(s: State, er: Er, op: Op, o: nat)
    requires Shape(s) && IsSem(s, o) && er != E_OK
    ensures Balanced(s, (s, er), op, o)
  {
    RestServes(s, s, o);
  }

  lemma QuietBalanced(s: State, s1: State, er: Er, op: Op, o: nat)
    requires Shape(s) && IsSem(s, o) && Quiet(s, s1, o) && (er == E_OK ==> !Concerns(op, o))
    ensures Balanced(s, (s1, er), op, o)
  {
  }

  lemma StepBalanced(s: State, op: Op, o: nat)
    requires Inv(s) && IsSem(s, o)
    ensures Balanced(s, Step(s, op), op, o)
  {
    hide ReadyOk, WaitOk, OrderOk, EvtOk, ObjOk, OwnOk, PriOk, Served, Step, Balanced, LeftAlone, Quiet;
    if Named(op) != Some(o) {
      StepRest(s, op, o);
      RestQuiet(s, Step(s, op).0, o, LeaverIn(s, op));
      QuietBalanced(s, Step(s, op).0, Step(s, op).1, op, o);
    } else if Concerns(op, o) {
      SemBalanced(s, op, o);
    } else {
      WrongKind(s, op, o);
      SameBalanced(s, Step(s, op).1, op, o);
    }
  }

  lemma SemBalanced(s: State, op: Op, o: nat)
    requires Inv(s) && IsSem(s, o) && Concerns(op, o)
    ensures Balanced(s, Step(s, op), op, o)
  {
    hide ReadyOk, WaitOk, OrderOk, EvtOk, ObjOk, OwnOk, PriOk, Served, SigSem, WaiSem, IniSem, Balanced, Then;
    SameBalanced(s, E_CTX, op, o);
    if op.Int? {
      SigBalance(s, op, o);
    } else if !s.intctx && s.run.Some? {
      match op.y
      case OpSigSem(_) => SigBalance(s, op, o);
      case OpWaiSem(_, tmo) => WaiBalance(s, s.run.value, op, o, tmo);
      case OpPolSem(_) => WaiBalance(s, s.run.value, op, o, Pol);
      case OpIniSem(_) => IniBalance(s, o);
    }
  }

  // ---- runs -------------------------------------------------------------------------------

  /** Over any run of calls and interrupts, with time-outs, forced releases, terminations
      and re-initializations, the count of a semaphore is what it started with, plus the
      signals accepted, minus the requests granted. */
  lemma {:induction false} CountIsConserved(s: State, ops: seq<Op>, o: nat)
    requires Inv(s) && IsSem(s, o)
    ensures IsSem(Run(s, ops), o) && Run(s, ops).objs[o].semcnt == Tally(s, ops, o, s.objs[o].semcnt)
    decreases |ops|
  {
    hide ReadyOk, WaitOk, OrderOk, EvtOk, OwnOk, PriOk, ObjOk, Do, Served, Entry;
    if ops != [] {
      StepCounts(s, ops[0], o);
      CountIsConserved(Do(s, ops[0]).0, ops[1..], o);
    }
  }
}
