/** Any interleaving of reading and writing tasks with the callbacks of an open port.

    Each step is one section that nothing interrupts: a semaphore call, or a section of
    the driver with the CPU locked.  The right to use the send buffer is a token that is
    in snd_sem, with a task, or given up to the device while the buffer is full; the
    right to use the receive buffer is in rcv_sem, with a task, or given up to the device
    while the buffer is empty. */
module SerialTokens {
  import opened Lists
  import opened Serial

  /** What a write returns to: its caller, or the reading task whose input it echoes. */
  datatype Back = NoBack | BackTo(n: nat, empty: bool)

  /** Where a task is.  Wri: in _serial_wri_dat or echoing, with rest to write; cr: the CR
      before the next LF is out; full: buffer_full, so that wai_sem comes next.  Rea: in
      _serial_rea_dat with n to read; empty: buffer_empty. */
  datatype Pc =
    | Idle
    | Wri(rest: seq<char>, cr: bool, full: bool, back: Back)
    | WriWait(rest: seq<char>, cr: bool, back: Back)
    | Rea(n: nat, empty: bool)
    | ReaWait(n: nat)

  datatype System = System(
    port: Port, sndSem: nat, rcvSem: nat, errorflag: bool, tasks: seq<Pc>,
    accepted: seq<char>,   // data written by tasks, in order
    sent: seq<char>,       // data handed to the device
    arrived: seq<char>,    // data the receive buffer kept
    delivered: seq<char>)  // data read by tasks, in order

  predicate HoldsSnd(pc: Pc) { pc.Wri? && !pc.full }

  predicate WaitsSnd(pc: Pc) { pc.WriWait? }

  predicate HoldsRcv(pc: Pc) {
    match pc
    case Idle => false
    case Wri(_, _, _, back) => back.BackTo? && !back.empty
    case WriWait(_, _, back) => back.BackTo? && !back.empty
    case Rea(_, empty) => !empty
    case ReaWait(_) => false
  }

  predicate WaitsRcv(pc: Pc) { pc.ReaWait? }

  function SetPc(s: System, t: nat, pc: Pc): System
    requires t < |s.tasks|
  {
    s.(tasks := s.tasks[t := pc])
  }

  /** The waiting task a signal releases: pick, or the first there is. */
  function Waiter(tasks: seq<Pc>, waits: Pc -> bool, pick: nat): (w: Option<nat>)
    ensures w.Some? ==> w.value < |tasks| && waits(tasks[w.value])
    ensures w.None? ==> forall t :: 0 <= t < |tasks| ==> !waits(tasks[t])
  {
    if pick < |tasks| && waits(tasks[pick]) then Some(pick) else FirstWaiter(tasks, waits, 0)
  }

  function FirstWaiter(tasks: seq<Pc>, waits: Pc -> bool, t: nat): (w: Option<nat>)
    requires forall u :: 0 <= u < t && u < |tasks| ==> !waits(tasks[u])
    ensures w.Some? ==> w.value < |tasks| && waits(tasks[w.value])
    ensures w.None? ==> forall u :: 0 <= u < |tasks| ==> !waits(tasks[u])
    decreases |tasks| - t
  {
    if t >= |tasks| then None else if waits(tasks[t]) then Some(t) else FirstWaiter(tasks, waits, t + 1)
  }

  /** sig_sem or isig_sem on snd_sem, whose maximum count is 1. */
  function SigSnd(s: System, pick: nat): System {
    match Waiter(s.tasks, WaitsSnd, pick)
    case Some(w) =>
      var pc := s.tasks[w];
      SetPc(s, w, Wri(pc.rest, pc.cr, false, pc.back))
    case None => if s.sndSem < 1 then s.(sndSem := s.sndSem + 1) else s.(errorflag := true)
  }

  /** sig_sem or isig_sem on rcv_sem. */
  function SigRcv(s: System, pick: nat): System {
    match Waiter(s.tasks, WaitsRcv, pick)
    case Some(w) => SetPc(s, w, Rea(s.tasks[w].n, false))
    case None => if s.rcvSem < 1 then s.(rcvSem := s.rcvSem + 1) else s.(errorflag := true)
  }

  function Return(back: Back): Pc {
    match back
    case NoBack => Idle
    case BackTo(n, empty) => Rea(n, empty)
  }

  /** The next step of a writing task. */
  function RunWri(s: System, t: nat, dev: bool, pick: nat): System
    requires t < |s.tasks| && s.tasks[t].Wri?
  {
    var pc := s.tasks[t];
    if pc.full then
      if pc.rest == [] then SetPc(s, t, Return(pc.back))
      else if s.sndSem > 0 then SetPc(s.(sndSem := s.sndSem - 1), t, pc.(full := false))
      else SetPc(s, t, WriWait(pc.rest, pc.cr, pc.back))
    else if pc.rest == [] then SigSnd(SetPc(s, t, Return(pc.back)), pick)
    else
      var first := pc.rest[0] == LF && s.port.ioctl.crlf && !pc.cr;
      var c := if first then CR else pc.rest[0];
      var (p, full, out) := PutChar(s.port, c, dev);
      SetPc(s.(port := p, accepted := s.accepted + [c], sent := s.sent + out), t,
            Wri(if first then pc.rest else pc.rest[1..], first, full, pc.back))
  }

  /** The next step of a reading task. */
  function RunRea(s: System, t: nat, dev: bool, pick: nat): System
    requires t < |s.tasks| && s.tasks[t].Rea?
  {
    var pc := s.tasks[t];
    if pc.n == 0 then
      var s1 := SetPc(s, t, Idle);
      if pc.empty then s1 else SigRcv(s1, pick)
    else if pc.empty then
      if s.rcvSem > 0 then SetPc(s.(rcvSem := s.rcvSem - 1), t, Rea(pc.n, false))
      else SetPc(s, t, ReaWait(pc.n))
    else if s.port.rcv == [] then s.(errorflag := true)
    else
      var (p, c, empty) := TakeChar(s.port, dev);
      SetPc(s.(port := p, delivered := s.delivered + [c]), t,
            if p.ioctl.echo then Wri([c], false, true, BackTo(pc.n - 1, empty)) else Rea(pc.n - 1, empty))
  }

  datatype Event =
    | CallWrite(t: nat, buf: seq<char>)
    | CallRead(t: nat, n: nat)
    | Run(t: nat, dev: bool, pick: nat)
    | IrdySnd(pick: nat)
    | IrdyRcv(c: char, dev: bool, pick: nat)
    | Control(ioctl: Ioctl)

  function Step(s: System, e: Event): System {
    match e
    case CallWrite(t, buf) =>
      if t < |s.tasks| && s.tasks[t] == Idle then SetPc(s, t, Wri(buf, false, true, NoBack)) else s
    case CallRead(t, n) =>
      if t < |s.tasks| && s.tasks[t] == Idle then SetPc(s, t, Rea(n, true)) else s
    case Run(t, dev, pick) =>
      if t >= |s.tasks| then s
      else if s.tasks[t].Wri? then RunWri(s, t, dev, pick)
      else if s.tasks[t].Rea? then RunRea(s, t, dev, pick)
      else s
    case IrdySnd(pick) =>
      var (p, out, sig) := ReadySnd(s.port);
      var s1 := s.(port := p, sent := s.sent + out);
      if sig then SigSnd(s1, pick) else s1
    case IrdyRcv(c, dev, pick) =>
      var r := ReadyRcv(s.port, c, dev);
      var s1 := s.(port := r.port, sent := s.sent + r.out, arrived := if r.kept then s.arrived + [c] else s.arrived);
      var s2 := if r.sigSnd then SigSnd(s1, pick) else s1;
      if r.sigRcv then SigRcv(s2, pick) else s2
    case Control(io) => s.(port := s.port.(ioctl := io))
  }

  // ---- the invariant ----------------------------------------------------------------------

  ghost function Holders(tasks: seq<Pc>, holds: Pc -> bool): nat {
    if tasks == [] then 0 else (if holds(tasks[0]) then 1 else 0) + Holders(tasks[1..], holds)
  }

  lemma {:induction false} HoldersSet(tasks: seq<Pc>, holds: Pc -> bool, t: nat, pc: Pc)
    requires t < |tasks|
    ensures Holders(tasks[t := pc], holds)
      == Holders(tasks, holds) - (if holds(tasks[t]) then 1 else 0) + (if holds(pc) then 1 else 0)
    ensures holds(tasks[t]) ==> Holders(tasks, holds) > 0
  {
    if t == 0 {
      assert tasks[0 := pc][1..] == tasks[1..];
    } else {
      HoldersSet(tasks[1..], holds, t - 1, pc);
      assert tasks[t := pc][1..] == tasks[1..][t - 1 := pc];
    }
  }

  /** One token for the send buffer: in the semaphore, with one task, or with the device
      while the buffer is full.  Nobody waits while it is in the semaphore. */
  ghost predicate SndToken(s: System) {
    && s.sndSem + Holders(s.tasks, HoldsSnd) + (if |s.port.snd| == s.port.sndCap then 1 else 0) == 1
    && (s.sndSem > 0 ==> forall t :: 0 <= t < |s.tasks| ==> !WaitsSnd(s.tasks[t]))
  }

  /** One token for the receive buffer: in the semaphore, with one task, or with the
      device while the buffer is empty. */
  ghost predicate RcvToken(s: System) {
    && s.rcvSem + Holders(s.tasks, HoldsRcv) + (if s.port.rcv == [] then 1 else 0) == 1
    && (s.rcvSem > 0 ==> forall t :: 0 <= t < |s.tasks| ==> !WaitsRcv(s.tasks[t]))
  }

  ghost predicate Inv(s: System) {
    && 0 < s.port.sndCap && |s.port.snd| <= s.port.sndCap
    && 0 < s.port.rcvCap && |s.port.rcv| <= s.port.rcvCap
    && SndToken(s) && RcvToken(s) && !s.errorflag
    && s.accepted == s.sent + s.port.snd
    && s.arrived == s.delivered + s.port.rcv
  }

  ghost function SndTokens(s: System): nat {
    s.sndSem + Holders(s.tasks, HoldsSnd) + (if |s.port.snd| == s.port.sndCap then 1 else 0)
  }

  ghost function RcvTokens(s: System): nat {
    s.rcvSem + Holders(s.tasks, HoldsRcv) + (if s.port.rcv == [] then 1 else 0)
  }

  /** What a change of one task does to the tokens. */
  lemma Moved(s: System, t: nat, pc: Pc)
    requires t < |s.tasks|
    ensures var s1 := SetPc(s, t, pc); var was := s.tasks[t];
      && SndTokens(s1) == SndTokens(s) - (if HoldsSnd(was) then 1 else 0) + (if HoldsSnd(pc) then 1 else 0)
      && RcvTokens(s1) == RcvTokens(s) - (if HoldsRcv(was) then 1 else 0) + (if HoldsRcv(pc) then 1 else 0)
    ensures HoldsSnd(s.tasks[t]) ==> Holders(s.tasks, HoldsSnd) > 0
    ensures HoldsRcv(s.tasks[t]) ==> Holders(s.tasks, HoldsRcv) > 0
  {
    HoldersSet(s.tasks, HoldsSnd, t, pc);
    HoldersSet(s.tasks, HoldsRcv, t, pc);
  }

  /** With no token about, a signal creates exactly one and never overflows. */
  lemma SigSndOk(s: System, pick: nat)
    requires SndTokens(s) == 0
    ensures var s1 := SigSnd(s, pick);
      && SndToken(s1) && RcvTokens(s1) == RcvTokens(s) && (RcvToken(s) ==> RcvToken(s1))
      && s1 == s.(sndSem := s1.sndSem, tasks := s1.tasks)
  {
    hide Holders;
    var w := Waiter(s.tasks, WaitsSnd, pick);
    if w.Some? {
      var pc := s.tasks[w.value];
      Moved(s, w.value, Wri(pc.rest, pc.cr, false, pc.back));
    }
  }

  lemma SigRcvOk(s: System, pick: nat)
    requires RcvTokens(s) == 0
    ensures var s1 := SigRcv(s, pick);
      && RcvToken(s1) && SndTokens(s1) == SndTokens(s) && (SndToken(s) ==> SndToken(s1))
      && s1 == s.(rcvSem := s1.rcvSem, tasks := s1.tasks)
  {
    hide Holders;
    var w := Waiter(s.tasks, WaitsRcv, pick);
    if w.Some? {
      Moved(s, w.value, Rea(s.tasks[w.value].n, false));
    }
  }

  lemma RunWriInv(s: System, t: nat, dev: bool, pick: nat)
    requires Inv(s) && t < |s.tasks| && s.tasks[t].Wri?
    ensures Inv(RunWri(s, t, dev, pick))
  {
    hide Holders, SigSnd;
    var pc := s.tasks[t];
    if pc.full {
      Moved(s, t, Return(pc.back));
      Moved(s, t, pc.(full := false));
      Moved(s, t, WriWait(pc.rest, pc.cr, pc.back));
    } else if pc.rest == [] {
      Moved(s, t, Return(pc.back));
      SigSndOk(SetPc(s, t, Return(pc.back)), pick);
    } else {
      WriteInv(s, t, dev, pick);
    }
  }

  lemma WriteInv(s: System, t: nat, dev: bool, pick: nat)
    requires Inv(s) && t < |s.tasks| && s.tasks[t].Wri? && !s.tasks[t].full && s.tasks[t].rest != []
    ensures Inv(RunWri(s, t, dev, pick))
  {
    hide Holders, SigSnd;
    var pc := s.tasks[t];
    var first := pc.rest[0] == LF && s.port.ioctl.crlf && !pc.cr;
    var (p, full, out) := PutChar(s.port, if first then CR else pc.rest[0], dev);
    Moved(s, t, Wri(if first then pc.rest else pc.rest[1..], first, full, pc.back));
  }

  lemma RunReaInv(s: System, t: nat, dev: bool, pick: nat)
    requires Inv(s) && t < |s.tasks| && s.tasks[t].Rea?
    ensures Inv(RunRea(s, t, dev, pick))
  {
    hide Holders, Waiter;
    var pc := s.tasks[t];
    if pc.n == 0 {
      Moved(s, t, Idle);
      if !pc.empty {
        SigRcvOk(SetPc(s, t, Idle), pick);
      }
    } else if pc.empty {
      Moved(s, t, Rea(pc.n, false));
      Moved(s, t, ReaWait(pc.n));
    } else {
      Moved(s, t, pc);
      var (p, c, empty) := TakeChar(s.port, dev);
      Moved(s, t, if p.ioctl.echo then Wri([c], false, true, BackTo(pc.n - 1, empty)) else Rea(pc.n - 1, empty));
    }
  }

  lemma IrdyRcvInv(s: System, c: char, dev: bool, pick: nat)
    requires Inv(s)
    ensures Inv(Step(s, IrdyRcv(c, dev, pick)))
  {
    hide Holders, SigSnd, SigRcv;
    var r := ReadyRcv(s.port, c, dev);
    var s1 := s.(port := r.port, sent := s.sent + r.out, arrived := if r.kept then s.arrived + [c] else s.arrived);
    if r.sigSnd {
      SigSndOk(s1, pick);
    }
    if r.sigRcv {
      SigRcvOk(s1, pick);
    }
  }

  /** Every step keeps the tokens, the order of the data and the absence of errors. */
  lemma StepInv(s: System, e: Event)
    requires Inv(s)
    ensures Inv(Step(s, e))
  {
    hide Holders, RunWri, RunRea, SigSnd, SigRcv;
    match e
    case CallWrite(t, buf) => if t < |s.tasks| { Moved(s, t, Wri(buf, false, true, NoBack)); }
    case CallRead(t, n) => if t < |s.tasks| { Moved(s, t, Rea(n, true)); }
    case Run(t, dev, pick) =>
      if t < |s.tasks| {
        if s.tasks[t].Wri? {
          RunWriInv(s, t, dev, pick);
        } else if s.tasks[t].Rea? {
          RunReaInv(s, t, dev, pick);
        }
      }
    case IrdySnd(pick) =>
      var (p, out, sig) := ReadySnd(s.port);
      if sig {
        SigSndOk(s.(port := p, sent := s.sent + out), pick);
      }
    case IrdyRcv(c, dev, pick) => IrdyRcvInv(s, c, dev, pick);
    case Control(io) =>
  }

  // ---- whole runs -------------------------------------------------------------------------

  /** A port just opened, with its semaphores as configured: snd_sem at 1, rcv_sem at 0. */
  function Opened(sndCap: nat, rcvCap: nat, ntasks: nat): System {
    System(Port(sndCap, rcvCap, [], [], false, false, FC_NONE, Ioctl(true, true, true, true, false)),
           1, 0, false, seq(ntasks, _ => Idle), [], [], [], [])
  }

  function Runs(s: System, es: seq<Event>): System
    decreases |es|
  {
    if es == [] then s else Runs(Step(s, es[0]), es[1..])
  }

  lemma {:induction false} NoHolders(tasks: seq<Pc>, holds: Pc -> bool)
    requires forall t :: 0 <= t < |tasks| ==> !holds(tasks[t])
    ensures Holders(tasks, holds) == 0
  {
    if tasks != [] {
      NoHolders(tasks[1..], holds);
    }
  }

  lemma {:induction false} RunsInv(s: System, es: seq<Event>)
    requires Inv(s)
    ensures Inv(Runs(s, es))
    decreases |es|
  {
    if es != [] {
      StepInv(s, es[0]);
      RunsInv(Step(s, es[0]), es[1..]);
    }
  }

  /** On an open port, whatever tasks and interrupts do: exactly one token for each
      buffer; no semaphore overflows; the buffers stay within bounds; a task about to
      write finds room and a task about to read finds data; data leaves in the order it
      was accepted and is read in the order it came. */
  lemma PortIsSafe(sndCap: nat, rcvCap: nat, ntasks: nat, es: seq<Event>)
    requires sndCap > 0 && rcvCap > 0
    ensures var s := Runs(Opened(sndCap, rcvCap, ntasks), es);
      && SndTokens(s) == 1 && RcvTokens(s) == 1 && !s.errorflag
      && |s.port.snd| <= s.port.sndCap && |s.port.rcv| <= s.port.rcvCap
      && (forall t :: 0 <= t < |s.tasks| && HoldsSnd(s.tasks[t]) ==> |s.port.snd| < s.port.sndCap)
      && (forall t :: 0 <= t < |s.tasks| && HoldsRcv(s.tasks[t]) ==> s.port.rcv != [])
      && s.accepted == s.sent + s.port.snd && s.arrived == s.delivered + s.port.rcv
  {
    var s0 := Opened(sndCap, rcvCap, ntasks);
    NoHolders(s0.tasks, HoldsSnd);
    NoHolders(s0.tasks, HoldsRcv);
    RunsInv(s0, es);
    var s := Runs(s0, es);
    forall t | 0 <= t < |s.tasks|
      ensures HoldsSnd(s.tasks[t]) ==> Holders(s.tasks, HoldsSnd) > 0
      ensures HoldsRcv(s.tasks[t]) ==> Holders(s.tasks, HoldsRcv) > 0
    {
      Moved(s, t, s.tasks[t]);
    }
  }
}
