/** The blocks of a fixed pool over whole runs: what has been handed out and not given back is
    exactly what the pool counts as allocated, and no block is with two tasks at once. */
module KernelPools {
  import opened Lists
  import opened KernelSpec
  import opened KernelInv
  import opened KernelKeeps
  import opened KernelSteps
  import opened KernelData
  import opened KernelRun
  import opened KernelRest
  import opened KernelResults
  import opened KernelWaits
  import opened KernelEnds
  import opened KernelCalls
  import opened KernelObjects

  // ---- what the callers see -----------------------------------------------------------------------

  /** The call returns a block to its caller. */
  predicate Grants(op: Op, er: Er, o: nat) {
    er == E_OK && op.Data? && op.d.o == o && (op.d.OpGetMpf? || op.d.OpPgetMpf?)
  }

  /** The wait of t for a block ends with one. */
  ghost predicate Obtains(s: State, op: Op, o: nat, t: Tid)
    requires Shape(s)
  {
    Admits(s, op) && t < |s.tcb| && On(s, t, o) && EndOf(s, op, t) == Some(E_OK)
  }

  /** The blocks tasks get in the step from s to s1: by a call that returns at once, or at the
      end of a wait. */
  ghost function Gained(s: State, op: Op, er: Er, s1: State, o: nat): set<int>
    requires Shape(s)
  {
    (if Grants(op, er, o) && s.run.Some? && s.run.value < |s1.tcb| then {s1.tcb[s.run.value].item.data} else {})
    + (set t | 0 <= t < |s1.tcb| && Obtains(s, op, o, t) :: s1.tcb[t].item.data)
  }

  /** The blocks tasks give back. */
  function GivenBack(op: Op, er: Er, o: nat): set<int> {
    if er == E_OK && op.Data? && op.d.OpRelMpf? && op.d.o == o then {op.d.b} else {}
  }

  /** What is out with tasks after one more call; initialization takes everything back. */
  ghost function Outstanding(s: State, op: Op, o: nat, out: set<int>): set<int>
    requires Shape(s)
  {
    var (s1, er) := Do(s, op);
    if er == E_OK && op == Data(OpIniMpf(o)) then {}
    else out - GivenBack(op, er, o) + Gained(s, op, er, s1, o)
  }

  ghost function OutAfter(s: State, ops: seq<Op>, o: nat, out: set<int>): set<int>
    requires Inv(s)
    decreases |ops|
  {
    if ops == [] then out
    else
      DoInv(s, ops[0]);
      OutAfter(Do(s, ops[0]).0, ops[1..], o, Outstanding(s, ops[0], o, out))
  }

  function Ints(a: set<nat>): set<int> {
    set b | b in a :: b as int
  }

  /** The blocks the pool counts as allocated. */
  function Allocated(s: State, o: nat): set<int>
    requires Shape(s) && IsMpf(s, o)
  {
    Ints(s.objs[o].pool.alloc)
  }

  lemma IntsPlus(a: set<nat>, b: nat)
    ensures Ints(a + {b}) == Ints(a) + {b as int} && (b in a <==> b as int in Ints(a))
  {
  }

  lemma IntsMinus(a: set<nat>, b: nat)
    ensures Ints(a - {b}) == Ints(a) - {b as int} && (b in a <==> b as int in Ints(a))
  {
    forall x: int ensures x in Ints(a - {b}) <==> x in Ints(a) - {b as int} {
      InInts(a, x);
      InInts(a - {b}, x);
    }
  }

  lemma InInts(a: set<nat>, x: int)
    ensures x in Ints(a) <==> x >= 0 && x as nat in a
  {
  }

  // ---- single calls -------------------------------------------------------------------------------

  /** rel_mpf while a task waits: the task that waits first gets that very block and its wait is
      over; the pool, the other tasks and the other queues stay as they are. */
  lemma BlockPassedOn(s: State, o: nat, b: nat)
    requires Inv(s) && RelMpf(s, o, b).1 == E_OK && IsMpf(s, o) && s.wq[o] != []
    ensures s.wq[o][0] < |s.tcb| && On(s, s.wq[o][0], o)
    ensures var s1 := RelMpf(s, o, b).0; var t := s.wq[o][0];
      && |s1.tcb| == |s.tcb| && s1.tcb[t].item.data == b && s1.tcb[t].wercd == E_OK && !s1.tcb[t].tstat.Waiting?
      && (forall u :: 0 <= u < |s.tcb| && u != t ==> s1.tcb[u] == s.tcb[u])
      && s1.objs == s.objs && |s1.wq| == |s.wq| && forall q :: 0 <= q < |s.wq| ==> s1.wq[q] == Remove(s.wq[q], t)
  {
    hide ReadyOk, WaitOk, OrderOk, EvtOk, OwnOk, PriOk, ObjOk, WakeHead, Remove, RelBlock;
    var t := s.wq[o][0];
    HeadWaits(s, o);
    ItemCore(s, t, Item(b, 0));
    HeadGone(SetItem(s, t, Item(b, 0)), o);
  }

  predicate Gets(p: (State, Er), r: Tid, b: nat) {
    p.1 == E_OK && r < |p.0.tcb| && p.0.tcb[r].item.data == b
  }

  /** rel_mpf while no one waits: just that block is free again, and the next one handed out. */
  lemma BlockFreed(s: State, o: nat, b: nat)
    requires Inv(s) && RelMpf(s, o, b).1 == E_OK && IsMpf(s, o) && s.wq[o] == []
    ensures var s1 := RelMpf(s, o, b).0; var p := s.objs[o].pool;
      && Shape(s1) && s1 == s.(objs := s.objs[o := s1.objs[o]]) && IsMpf(s1, o)
      && b in p.alloc && s1.objs[o].pool.alloc == p.alloc - {b} && s1.objs[o].pool.fblkcnt == p.fblkcnt + 1
      && forall r, tmo :: 0 <= r < |s.tcb| ==> Gets(GetMpf(s1, r, o, tmo), r, b)
  {
    hide ReadyOk, WaitOk, OrderOk, EvtOk, OwnOk, PriOk, ObjOk, WobjMakeWait;
  }

  /** ini_mpf, ini_dtq, ini_flg and ini_sem put the object back to its initial state. */
  lemma Initialized(s: State, o: nat)
    requires Inv(s) && o < |s.inib|
    ensures IsSem(s, o) ==> IniSem(s, o).0.objs == s.objs[o := SemCb(s.inib[o].isemcnt)]
    ensures IsFlg(s, o) ==> IniFlg(s, o).0.objs == s.objs[o := FlgCb(s.inib[o].iflgptn)]
    ensures IsDtq(s, o) ==> IniDtq(s, o).0.objs == s.objs[o := DtqCb([])]
    ensures IsMpf(s, o) ==> IniMpf(s, o).0.objs == s.objs[o := MpfCb(Pool(s.inib[o].blkcnt, 0, [], {}))]
  {
    hide ReadyOk, WaitOk, OrderOk, EvtOk, OwnOk, PriOk, ObjOk, WakeAll;
    WakeAllCore(s, o);
    var s1 := WakeAll(s, s.wq[o]);
    WakeAllCore(s1, RcvQ(s, o));
  }

  // ---- one step -----------------------------------------------------------------------------------

  /** What StepBlocks promises: the pool counts what is out, and the step hands out at most one
      block, which was not out, or has just been given back. */
  ghost predicate Accounted(s: State, p: (State, Er), op: Op, o: nat)
    requires Shape(s) && IsMpf(s, o)
  {
    var (s1, er) := p;
    var out := Allocated(s, o);
    var gained := Gained(s, op, er, s1, o);
    && Shape(s1) && s1.inib == s.inib
    && Allocated(s1, o) == (if er == E_OK && op == Data(OpIniMpf(o)) then {} else out - GivenBack(op, er, o) + gained)
    && gained !! out - GivenBack(op, er, o) && |gained| <= 1
    && forall b :: b in gained ==> 0 <= b < s.inib[o].blkcnt
  }

  /** Only rel_mpf ends the wait for a block with E_OK. */
  lemma WhoObtains(s: State, op: Op, o: nat, t: Tid)
    requires Inv(s) && IsMpf(s, o) && Obtains(s, op, o, t)
    ensures op.Data? && op.d.OpRelMpf? && op.d.o == o && Next(s, t, o) && Called(s, op)
  {
    hide ReadyOk, WaitOk, OrderOk, EvtOk, PriOk, ObjOk, Released;
    if op.Sync? && op.y.OpSetFlg? {
      NotReleased(s, op.y.o, op.y.ptn, t, o);
    } else if op.Int? && op.i.OpISetFlg? {
      NotReleased(s, op.i.o, op.i.ptn, t, o);
    }
  }

  lemma NotReleased(s: State, f: nat, ptn: bv32, t: Tid, o: nat)
    requires Shape(s) && IsMpf(s, o) && t < |s.tcb| && On(s, t, o)
    ensures !Released(s, f, ptn, t)
  {
  }

  /** A step that hands out block b. */
  lemma OneGained(s: State, p: (State, Er), op: Op, o: nat, b: nat)
    requires Shape(s) && IsMpf(s, o) && Shape(p.0) && p.0.inib == s.inib && IsMpf(p.0, o) && b < s.inib[o].blkcnt
    requires Gained(s, op, p.1, p.0, o) == {b as int} && op != Data(OpIniMpf(o))
    requires var out := Allocated(s, o) - GivenBack(op, p.1, o); b as int !in out && Allocated(p.0, o) == out + {b as int}
    ensures Accounted(s, p, op, o)
  {
    hide Obtains, Ints, Gained;
  }

  /** A step in which nothing happens to the pool. */
  lemma NothingGained(s: State, p: (State, Er), op: Op, o: nat)
    requires Shape(s) && IsMpf(s, o) && Shape(p.0) && p.0.inib == s.inib && p.0.objs[o] == s.objs[o]
    requires p.1 != E_OK || Named(op) != Some(o)
    requires forall t :: !Obtains(s, op, o, t)
    ensures Accounted(s, p, op, o)
  {
    hide Obtains, Ints, Accounted;
    assert GivenBack(op, p.1, o) == {};
    assert Allocated(s, o) - {} == Allocated(s, o);
    NoneGained(s, p, op, o);
  }

  lemma GetAccounted(s: State, op: Op, o: nat)
    requires Inv(s) && IsMpf(s, o) && Called(s, op) && Grants(op, Step(s, op).1, o)
    ensures Accounted(s, Step(s, op), op, o)
  {
    hide ReadyOk, WaitOk, OrderOk, EvtOk, OwnOk, PriOk, ObjOk, Obtains, GetMpf, Accounted, Ints;
    var r := s.run.value;
    forall t ensures !Obtains(s, op, o, t) {
      if Obtains(s, op, o, t) {
        WhoObtains(s, op, o, t);
      }
    }
    var tmo := if op.d.OpGetMpf? then op.d.tmo else Pol;
    assert Step(s, op) == GetMpf(s, r, o, tmo);
    GrantedIsNew(s, r, o, tmo);
    GetFrame(s, r, o, tmo);
    var b := GetMpf(s, r, o, tmo).0.tcb[r].item.data;
    IntsPlus(s.objs[o].pool.alloc, b);
    OneGained(s, Step(s, op), op, o, b);
  }

  lemma GetFrame(s: State, r: Tid, o: nat, tmo: Tmo)
    requires Shape(s) && r < |s.tcb| && IsMpf(s, o)
    ensures GetMpf(s, r, o, tmo).0.inib == s.inib
  {
    hide WobjMakeWait, GetBlock;
  }

  lemma RelAccounted(s: State, o: nat, b: nat)
    requires Inv(s) && IsMpf(s, o) && Called(s, Data(OpRelMpf(o, b))) && RelMpf(s, o, b).1 == E_OK
    ensures Accounted(s, RelMpf(s, o, b), Data(OpRelMpf(o, b)), o)
  {
    hide ReadyOk, WaitOk, OrderOk, EvtOk, OwnOk, PriOk, ObjOk, Obtains, RelMpf, Remove, Ints, Accounted;
    var op := Data(OpRelMpf(o, b));
    RelFacts(s, o, b);
    IntsMinus(s.objs[o].pool.alloc, b);
    forall t ensures Obtains(s, op, o, t) <==> s.wq[o] != [] && s.wq[o][0] == t {
      RelObtains(s, o, b, t);
    }
    if s.wq[o] != [] {
      BlockPassedOn(s, o, b);
      OneGained(s, RelMpf(s, o, b), op, o, b);
    } else {
      BlockFreed(s, o, b);
      NoneGained(s, RelMpf(s, o, b), op, o);
    }
  }

  /** A step that only takes blocks back. */
  lemma NoneGained(s: State, p: (State, Er), op: Op, o: nat)
    requires Shape(s) && IsMpf(s, o) && Shape(p.0) && p.0.inib == s.inib && IsMpf(p.0, o)
    requires !Grants(op, p.1, o) && forall t :: !Obtains(s, op, o, t)
    requires Allocated(p.0, o) ==
      if p.1 == E_OK && op == Data(OpIniMpf(o)) then {} else Allocated(s, o) - GivenBack(op, p.1, o)
    ensures Accounted(s, p, op, o)
  {
    hide Obtains, Allocated, GivenBack, Gained, Grants;
    NoGain(s, op, p.1, p.0, o);
    var out := Allocated(s, o) - GivenBack(op, p.1, o);
    assert out + {} == out;
  }

  lemma NoGain(s: State, op: Op, er: Er, s1: State, o: nat)
    requires Shape(s) && !Grants(op, er, o) && forall t :: !Obtains(s, op, o, t)
    ensures Gained(s, op, er, s1, o) == {}
  {
    hide Obtains, Grants;
  }

  lemma RelFacts(s: State, o: nat, b: nat)
    requires Inv(s) && IsMpf(s, o) && RelMpf(s, o, b).1 == E_OK
    ensures b in s.objs[o].pool.alloc && b < s.inib[o].blkcnt
    ensures Shape(RelMpf(s, o, b).0) && RelMpf(s, o, b).0.inib == s.inib
  {
    hide ReadyOk, WaitOk, OrderOk, EvtOk, OwnOk, PriOk, WakeHead;
    assert ObjOk(s, o);
  }

  /** rel_mpf serves the task that waits first, and no one else. */
  lemma RelObtains(s: State, o: nat, b: nat, t: Tid)
    requires Inv(s) && IsMpf(s, o) && Called(s, Data(OpRelMpf(o, b))) && b in s.objs[o].pool.alloc
    ensures Obtains(s, Data(OpRelMpf(o, b)), o, t) <==> s.wq[o] != [] && s.wq[o][0] == t
  {
    hide ReadyOk, WaitOk, OrderOk, EvtOk, OwnOk, PriOk, ObjOk;
    if s.wq[o] != [] {
      HeadWaits(s, o);
    }
  }

  lemma IniAccounted(s: State, o: nat)
    requires Inv(s) && IsMpf(s, o) && Called(s, Data(OpIniMpf(o)))
    ensures Accounted(s, IniMpf(s, o), Data(OpIniMpf(o)), o)
  {
    hide ReadyOk, WaitOk, OrderOk, EvtOk, OwnOk, PriOk, ObjOk, Obtains, WakeAll;
    var op := Data(OpIniMpf(o));
    forall t ensures !Obtains(s, op, o, t) {
      if Obtains(s, op, o, t) {
        WhoObtains(s, op, o, t);
      }
    }
    Initialized(s, o);
    IniFrame(s, o);
    NoneGained(s, IniMpf(s, o), op, o);
  }

  lemma IniFrame(s: State, o: nat)
    requires Shape(s) && IsMpf(s, o)
    ensures var (s1, er) := IniMpf(s, o); er == E_OK && Shape(s1) && s1.inib == s.inib
  {
    hide WakeAll;
  }

  /** One call, interrupt or tick of any kind, whatever it names. */
  lemma StepBlocks(s: State, op: Op, o: nat)
    requires Inv(s) && IsMpf(s, o)
    ensures Accounted(s, Do(s, op), op, o)
  {
    hide ReadyOk, WaitOk, OrderOk, EvtOk, OwnOk, PriOk, ObjOk, Step, Accounted, Obtains;
    var (s1, er) := Do(s, op);
    DoInv(s, op);
    if op.Data? && op.d.o == o && Called(s, op) && er == E_OK
       && (op.d.OpGetMpf? || op.d.OpPgetMpf? || op.d.OpRelMpf? || op.d.OpIniMpf?) {
      PoolStep(s, op, o);
    } else {
      forall t ensures !Obtains(s, op, o, t) {
        if Obtains(s, op, o, t) {
          ObtainsOk(s, op, o, t);
        }
      }
      PoolStays(s, op, o);
      NothingGained(s, Do(s, op), op, o);
    }
  }

  lemma PoolStep(s: State, op: Op, o: nat)
    requires Inv(s) && IsMpf(s, o) && op.Data? && op.d.o == o && Called(s, op) && Step(s, op).1 == E_OK
    requires op.d.OpGetMpf? || op.d.OpPgetMpf? || op.d.OpRelMpf? || op.d.OpIniMpf?
    ensures Accounted(s, Step(s, op), op, o)
  {
    hide ReadyOk, WaitOk, OrderOk, EvtOk, OwnOk, PriOk, ObjOk, Accounted, GetMpf, RelMpf, IniMpf;
    match op.d
    case OpGetMpf(_, _) => GetAccounted(s, op, o);
    case OpPgetMpf(_) => GetAccounted(s, op, o);
    case OpRelMpf(_, b) => RelAccounted(s, o, b);
    case OpIniMpf(_) => IniAccounted(s, o);
  }

  /** Who obtains a block does so from a rel_mpf that returns E_OK. */
  lemma ObtainsOk(s: State, op: Op, o: nat, t: Tid)
    requires Inv(s) && IsMpf(s, o) && Obtains(s, op, o, t)
    ensures op.Data? && op.d.OpRelMpf? && op.d.o == o && Called(s, op) && Do(s, op).1 == E_OK
  {
    hide ReadyOk, WaitOk, OrderOk, EvtOk, OwnOk, PriOk, ObjOk, Step;
    WhoObtains(s, op, o, t);
    ObjectResult(s, op);
  }

  lemma PoolStays(s: State, op: Op, o: nat)
    requires Inv(s) && IsMpf(s, o)
    requires !(op.Data? && op.d.o == o && Called(s, op) && Do(s, op).1 == E_OK
               && (op.d.OpGetMpf? || op.d.OpPgetMpf? || op.d.OpRelMpf? || op.d.OpIniMpf?))
    ensures var (s1, er) := Do(s, op);
      && Shape(s1) && s1.inib == s.inib && s1.objs[o] == s.objs[o] && (er != E_OK || Named(op) != Some(o))
  {
    hide ReadyOk, WaitOk, OrderOk, EvtOk, OwnOk, PriOk, ObjOk, Step;
    DoInv(s, op);
    if Admits(s, op) {
      if Named(op) != Some(o) {
        StepRest(s, op, o);
      } else if !ForKind(op, s.inib[o]) {
        WrongKind(s, op, o);
      } else if Step(s, op).1 == Blocked {
        BlockedWaits(s, op);
      } else {
        RefusedCtx(s, op);
        FailsAlone(s, op);
      }
    }
  }

  lemma RefusedCtx(s: State, op: Op)
    requires Shape(s) && op.Data?
    ensures !Called(s, op) || s.run.value >= |s.tcb| ==> Step(s, op) == (s, E_CTX)
  {
    hide DataStep;
  }

  // ---- runs ---------------------------------------------------------------------------------------

  /** Over any run of calls, interrupts and ticks, with time-outs, forced releases, terminations
      and re-initializations, the blocks handed out and not given back are those the pool counts
      as allocated. */
  lemma {:induction false} BlocksAreAccounted(s: State, ops: seq<Op>, o: nat)
    requires Inv(s) && IsMpf(s, o)
    ensures var s1 := Run(s, ops);
      Shape(s1) && s1.inib == s.inib && OutAfter(s, ops, o, Allocated(s, o)) == Allocated(s1, o)
    decreases |ops|
  {
    hide ReadyOk, WaitOk, OrderOk, EvtOk, OwnOk, PriOk, ObjOk, Do, Allocated, Gained, GivenBack;
    if ops != [] {
      StepBlocks(s, ops[0], o);
      DoInv(s, ops[0]);
      BlocksAreAccounted(Do(s, ops[0]).0, ops[1..], o);
    }
  }

  /** So no block is ever with two tasks at once: what a step hands out goes to one task, and
      was not out, or has been given back in that very step. */
  lemma NeverTwice(s: State, ops: seq<Op>, op: Op, o: nat, b: int)
    requires Inv(s) && IsMpf(s, o)
    ensures var s1 := Run(s, ops); var (s2, er) := Do(s1, op); var out := OutAfter(s, ops, o, Allocated(s, o));
      && (b in Gained(s1, op, er, s2, o) ==>
            0 <= b < s.inib[o].blkcnt && (b !in out || b in GivenBack(op, er, o)) && |Gained(s1, op, er, s2, o)| == 1)
      && (forall t, u :: Obtains(s1, op, o, t) && Obtains(s1, op, o, u) ==> t == u && !Grants(op, er, o))
  {
    hide ReadyOk, WaitOk, OrderOk, EvtOk, OwnOk, PriOk, ObjOk, Do, Allocated, Gained, GivenBack, Obtains;
    BlocksAreAccounted(s, ops, o);
    StepBlocks(Run(s, ops), op, o);
    forall t | Obtains(Run(s, ops), op, o, t) ensures First(Run(s, ops).wq[o], t) && op.Data? && op.d.OpRelMpf? {
      WhoObtains(Run(s, ops), op, o, t);
    }
  }
}
