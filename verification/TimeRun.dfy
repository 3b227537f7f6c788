/** Any number of ticks, with any calls of tasks before each tick and any actions of handlers
    during it: what an alarm, a time-out or a cyclic handler that is left alone does. */
module TimeRun {
  import opened Arith
  import opened Lists
  import opened TimeHeap
  import opened EventHeap
  import opened TimeEvent
  import K = KernelSpec

  // ---- the clock in closed form -------------------------------------------------------------

  /** current_time after tick k, when a tick lasts nume / deno. */
  function At(k: nat, nume: nat, deno: nat): nat
    requires deno > 0
  {
    k * nume / deno
  }

  /** There is no drift: current_time is the whole part of the exact time of the tick. */
  lemma ClockAt(k: nat, nume: nat, deno: nat, now: nat, next: nat, sub: nat)
    requires TickOk(k, nume, deno, now, next, sub)
    ensures now == At(k, nume, deno) && next == At(k + 1, nume, deno)
  {
    DivIs(k * nume, deno, now);
    DivIs((k + 1) * nume, deno, next);
  }

  lemma AtMono(j: nat, k: nat, nume: nat, deno: nat)
    requires deno > 0 && j <= k
    ensures At(j, nume, deno) <= At(k, nume, deno)
  {
    MulMono(j, k, nume);
    DivMono(j * nume, k * nume, deno);
  }

  lemma AtBounds(k: nat, nume: nat, deno: nat)
    requires deno > 0
    ensures At(k, nume, deno) * deno <= k * nume < (At(k, nume, deno) + 1) * deno
  {
    assert k * nume == At(k, nume, deno) * deno + k * nume % deno;
  }

  /** Tick j is in time for an event asked for after tick k with relative time r: it comes at
      least r after tick k + 1, and so at least r after the call, which was before tick
      k + 1; and the tick before it came less than r + 1 after tick k + 1. */
  ghost predicate InTime(k: nat, j: nat, r: nat, nume: nat, deno: nat) {
    && j > k
    && j * nume - (k + 1) * nume >= r * deno
    && (j - 1) * nume - (k + 1) * nume < (r + 1) * deno
  }

  lemma FiredInTime(k: nat, nume: nat, deno: nat, now: nat, next: nat, sub: nat, r: nat, j: nat)
    requires TickOk(k, nume, deno, now, next, sub) && j > 0
    requires At(j - 1, nume, deno) < Base(next, sub) + r <= At(j, nume, deno)
    ensures InTime(k, j, r, nume, deno)
  {
    AtBounds(j, nume, deno);
    AtBounds(j - 1, nume, deno);
    NeverEarly(k, nume, deno, now, next, sub, r, j, At(j, nume, deno));
    NotLate(k, nume, deno, now, next, sub, r, j - 1, At(j - 1, nume, deno));
  }

  // ---- what happens to one block ----------------------------------------------------------------

  /** A call of a task between ticks. */
  datatype Call = CallStaCyc(c: nat) | CallStpCyc(c: nat) | CallWait(t: nat, tmout: nat) | CallAct(act: Act)

  /** The calls of tasks before a tick, and what each handler fired in it does. */
  datatype Turn = Turn(calls: seq<Call>, script: nat -> seq<Act>)

  predicate Concerns(call: Call, b: nat, tasks: nat, cycs: nat) {
    match call
    case CallStaCyc(c) => b == tasks + c
    case CallStpCyc(c) => b == tasks + c
    case CallWait(t, _) => b == t
    case CallAct(act) => Touches(act, b, tasks, cycs)
  }

  /** Nobody stops, starts or restarts block b in the turn. */
  ghost predicate Leaves(turn: Turn, b: nat, tasks: nat, cycs: nat) {
    && (forall i :: 0 <= i < |turn.calls| ==> !Concerns(turn.calls[i], b, tasks, cycs))
    && (forall i: nat, j :: 0 <= j < |turn.script(i)| ==> !Touches(turn.script(i)[j], b, tasks, cycs))
  }

  ghost predicate Untouched(turns: seq<Turn>, b: nat, tasks: nat, cycs: nat) {
    forall i :: 0 <= i < |turns| ==> Leaves(turns[i], b, tasks, cycs)
  }

  /** Tick k + 1 is the first whose time reaches the event time f. */
  predicate DueIn(f: Option<nat>, k: nat, nume: nat, deno: nat)
    requires deno > 0
  {
    f.Some? && At(k, nume, deno) < f.value <= At(k + 1, nume, deno)
  }

  function Later(f: Option<nat>, now: nat): Option<nat> {
    if f.Some? && f.value > now then f else None
  }

  ghost predicate AtIts(log: seq<Fired>, b: nat, f: Option<nat>) {
    forall i :: 0 <= i < |log| && log[i].blk == b ==> f == Some(log[i].at)
  }

  /** Over the ticks after tick k0, block b with event time f0 fires once in the first tick
      that reaches f0, at f0, and in no other. */
  ghost predicate OnceRun(f0: Option<nat>, f1: Option<nat>, logs: seq<seq<Fired>>, b: nat, k0: nat, nume: nat, deno: nat)
    requires deno > 0
  {
    && f1 == Later(f0, At(k0 + |logs|, nume, deno))
    && forall i :: 0 <= i < |logs| ==>
         AtIts(logs[i], b, f0) && Count(logs[i], b) == if DueIn(f0, k0 + i, nume, deno) then 1 else 0
  }

  lemma OnceRunMore(f0: Option<nat>, f: Option<nat>, f1: Option<nat>, logs: seq<seq<Fired>>, log: seq<Fired>,
                    b: nat, k0: nat, nume: nat, deno: nat)
    requires deno > 0 && OnceRun(f0, f, logs, b, k0, nume, deno)
    requires AtIts(log, b, f) && f1 == Later(f, At(k0 + |logs| + 1, nume, deno))
    requires Count(log, b) == if f.Some? && f.value <= At(k0 + |logs| + 1, nume, deno) then 1 else 0
    ensures OnceRun(f0, f1, logs + [log], b, k0, nume, deno)
  {
    hide Count, At, AtIts;
    AtMono(k0 + |logs|, k0 + |logs| + 1, nume, deno);
    assert f.None? ==> AtIts(log, b, f0) by {
      NoneAt(log, b, f, f0);
    }
  }

  lemma NoneAt(log: seq<Fired>, b: nat, f: Option<nat>, f0: Option<nat>)
    requires AtIts(log, b, f)
    ensures f == None ==> AtIts(log, b, f0)
  {
  }

  ghost function Flat(logs: seq<seq<Fired>>): seq<Fired> {
    if logs == [] then [] else Flat(logs[..|logs| - 1]) + logs[|logs| - 1]
  }

  lemma FlatMore(logs: seq<seq<Fired>>, log: seq<Fired>)
    ensures Flat(logs + [log]) == Flat(logs) + log
  {
    assert (logs + [log])[..|logs|] == logs;
  }

  lemma {:induction false} CountJoin(log: seq<Fired>, log1: seq<Fired>, b: nat)
    ensures Count(log + log1, b) == Count(log, b) + Count(log1, b)
  {
    if log1 == [] {
      assert log + log1 == log;
    } else {
      var l := |log1| - 1;
      CountJoin(log, log1[..l], b);
      assert (log + log1)[..|log| + l] == log + log1[..l];
    }
  }

  lemma NthAdd(t0: nat, m: nat, n: nat, period: nat)
    ensures Nth(Nth(t0, m, period), n, period) == Nth(t0, m + n, period)
  {
    assert (m + n) * period == m * period + n * period;
  }

  /** What a cyclic handler did over two stretches of time, taken together. */
  lemma CycJoin(f0: Option<nat>, f: Option<nat>, f1: Option<nat>, log: seq<Fired>, log1: seq<Fired>, b: nat, period: nat)
    requires CycProgress(f0, f, log, b, period) && CycProgress(f, f1, log1, b, period)
    ensures CycProgress(f0, f1, log + log1, b, period)
  {
    hide Count, Nth;
    CountJoin(log, log1, b);
    if f0.Some? {
      var t0 := f0.value;
      NthAdd(t0, Count(log, b), Count(log1, b), period);
      var both := log + log1;
      forall i | 0 <= i < |both| && both[i].blk == b ensures both[i].at == Nth(t0, Count(both[..i], b), period) {
        if i < |log| {
          assert both[..i] == log[..i];
        } else {
          var j := i - |log|;
          assert both[..i] == log + log1[..j];
          CountJoin(log, log1[..j], b);
          NthAdd(t0, Count(log, b), Count(log1[..j], b), period);
        }
      }
    }
  }

  /** Over the ticks so far, block b of a cyclic handler next due at f0 has fired once for
      each period elapsed, at f0, f0 + period, f0 + 2 * period, ... */
  ghost predicate CycRun(f0: Option<nat>, f1: Option<nat>, logs: seq<seq<Fired>>, b: nat, period: nat, now: nat) {
    && Count(Flat(logs), b) == Left(f0, period, now)
    && (f0.None? ==> f1 == None)
    && (f0.Some? ==> f1 == Some(Nth(f0.value, Left(f0, period, now), period)) && Periodic(Flat(logs), b, f0.value, period))
  }

  // ---- runs -----------------------------------------------------------------------------------------

  method Perform(t: Timer, call: Call)
    requires t.Valid()
    modifies t.ev`lastIndex, t.ev.heap, t.ev.index, t.tmo, t.cycsta, t.evttim, t.almsta
    ensures t.Valid()
    ensures forall b :: 0 <= b < |t.Fires()| && !Concerns(call, b, t.tasks, |t.cyc|) ==> t.Fires()[b] == old(t.Fires())[b]
  {
    hide Rel, TickOk, Ordered, Indexed, Due, Touches;
    t.BaseAhead();
    match call
    case CallStaCyc(c) =>
      if c < |t.cyc| {
        t.StaCyc(c);
      }
    case CallStpCyc(c) =>
      if c < |t.cyc| {
        t.StpCyc(c);
      }
    case CallWait(i, tmout) =>
      if i < t.tasks && !t.tmo[i] && tmout <= t.tmax {
        t.StartWait(i, tmout);
      }
    case CallAct(act) =>
      t.RunAct(act);
  }

  method PerformAll(t: Timer, calls: seq<Call>)
    requires t.Valid()
    modifies t.ev`lastIndex, t.ev.heap, t.ev.index, t.tmo, t.cycsta, t.evttim, t.almsta
    ensures t.Valid()
    ensures forall b :: 0 <= b < |t.Fires()| && (forall i :: 0 <= i < |calls| ==> !Concerns(calls[i], b, t.tasks, |t.cyc|)) ==>
      t.Fires()[b] == old(t.Fires())[b]
  {
    hide Concerns;
    for n := 0 to |calls|
      invariant t.Valid()
      invariant forall b :: 0 <= b < |t.Fires()| && (forall i :: 0 <= i < |calls| ==> !Concerns(calls[i], b, t.tasks, |t.cyc|)) ==>
        t.Fires()[b] == old(t.Fires())[b]
    {
      Perform(t, calls[n]);
    }
  }

  /** One tick, for a block with event time f that is left alone. */
  ghost predicate TickOnce(f: Option<nat>, f1: Option<nat>, log: seq<Fired>, b: nat, now: nat) {
    && AtIts(log, b, f) && f1 == Later(f, now)
    && Count(log, b) == if f.Some? && f.value <= now then 1 else 0
  }

  lemma OnceTick(t: Timer, f: Option<nat>, f1: Option<nat>, log: seq<Fired>, b: nat, turn: Turn)
    requires t.OnceFired(f, f1, log, b, turn.script) && Leaves(turn, b, t.tasks, |t.cyc|)
    ensures TickOnce(f, f1, log, b, t.now)
  {
  }

  lemma TickCyc(t: Timer, f: Option<nat>, f1: Option<nat>, log: seq<Fired>, b: nat, period: nat)
    requires t.CycFired(f, f1, log, b, period)
    ensures CycProgress(f, f1, log, b, period)
  {
  }

  lemma NothingYet(f: Option<nat>, b: nat, now: nat, period: nat)
    requires f.Some? ==> now < f.value
    ensures f == Later(f, now) && CycProgress(f, f, Flat([]), b, period)
  {
    if f.Some? {
      NthZero(f.value, period);
    }
  }

  lemma CycDone(f0: Option<nat>, f1: Option<nat>, logs: seq<seq<Fired>>, b: nat, period: nat, now: nat)
    requires period > 0 && CycProgress(f0, f1, Flat(logs), b, period) && (f1.Some? ==> now < f1.value)
    requires forall i :: 0 <= i < |Flat(logs)| ==> Flat(logs)[i].at <= now
    ensures CycRun(f0, f1, logs, b, period, now)
  {
    hide Flat, Count, Nth, Periodic;
    if f0.Some? {
      PeriodsElapsed(f0.value, period, Count(Flat(logs), b), now, Flat(logs), b);
    }
  }

  predicate IsCyc(t: Timer, b: nat) {
    t.tasks <= b < t.tasks + |t.cyc|
  }

  /** What a turn does to each block it leaves alone. */
  ghost predicate TurnOk(t: Timer, turn: Turn, f: seq<Option<nat>>, f1: seq<Option<nat>>, log: seq<Fired>, now: nat) {
    && |f| == |f1| == t.tasks + |t.cyc| + t.alms
    && (forall i :: 0 <= i < |log| ==> log[i].at <= now)
    && (forall b :: 0 <= b < |f| && !IsCyc(t, b) && Leaves(turn, b, t.tasks, |t.cyc|) ==>
          TickOnce(f[b], f1[b], log, b, now))
    && (forall c :: 0 <= c < |t.cyc| && Leaves(turn, t.tasks + c, t.tasks, |t.cyc|) ==>
          CycProgress(f[t.tasks + c], f1[t.tasks + c], log, t.tasks + c, t.cyc[c].cyctim))
  }

  method OneTurn(t: Timer, turn: Turn) returns (ghost log: seq<Fired>)
    requires t.Valid()
    modifies t, t.ev, t.ev.heap, t.ev.index, t.tmo, t.cycsta, t.evttim, t.almsta
    ensures t.Valid() && t.tick == old(t.tick) + 1 && old(t.now) <= t.now
    ensures TurnOk(t, turn, old(t.Fires()), t.Fires(), log, t.now)
  {
    hide Count, Rel, Ordered, Indexed, Due, Leaves, Later, Timer.OnceFired, Timer.CycFired, InOrder, AtIts,
         Timer.Owned, TickOnce, CycProgress;
    PerformAll(t, turn.calls);
    ghost var f9 := t.Fires();
    BaseLater(t.tick, t.nume, t.deno, t.now, t.nextAbs, t.nextSubtime);
    log := t.SignalTime(turn.script);
    TurnEnds(t, turn, old(t.Fires()), f9, t.Fires(), log);
  }

  lemma TurnEnds(t: Timer, turn: Turn, f: seq<Option<nat>>, f9: seq<Option<nat>>, f1: seq<Option<nat>>, log: seq<Fired>)
    requires |f| == |f9| == |f1| == t.tasks + |t.cyc| + t.alms && forall i :: 0 <= i < |log| ==> log[i].at <= t.now
    requires forall b :: 0 <= b < |f| && (forall i :: 0 <= i < |turn.calls| ==> !Concerns(turn.calls[i], b, t.tasks, |t.cyc|)) ==>
      f9[b] == f[b]
    requires forall c :: 0 <= c < |t.cyc| ==>
      t.CycFired(f9[t.tasks + c], f1[t.tasks + c], log, t.tasks + c, t.cyc[c].cyctim)
    requires forall b :: 0 <= b < |f| && !IsCyc(t, b) ==> t.OnceFired(f9[b], f1[b], log, b, turn.script)
    ensures TurnOk(t, turn, f, f1, log, t.now)
  {
    hide TickOnce, CycProgress, Timer.OnceFired, Timer.CycFired;
    forall b | 0 <= b < |f| && !IsCyc(t, b) && Leaves(turn, b, t.tasks, |t.cyc|)
      ensures TickOnce(f[b], f1[b], log, b, t.now)
    {
      OnceTick(t, f9[b], f1[b], log, b, turn);
    }
    forall c | 0 <= c < |t.cyc| && Leaves(turn, t.tasks + c, t.tasks, |t.cyc|)
      ensures CycProgress(f[t.tasks + c], f1[t.tasks + c], log, t.tasks + c, t.cyc[c].cyctim)
    {
      TickCyc(t, f9[t.tasks + c], f1[t.tasks + c], log, t.tasks + c, t.cyc[c].cyctim);
    }
  }

  /** What the turns so far did to each block all turns leave alone. */
  ghost predicate RunOk(t: Timer, turns: seq<Turn>, f0: seq<Option<nat>>, f1: seq<Option<nat>>,
                        logs: seq<seq<Fired>>, k0: nat, now: nat)
    requires t.deno > 0
  {
    && |f0| == |f1| == t.tasks + |t.cyc| + t.alms
    && (forall i :: 0 <= i < |Flat(logs)| ==> Flat(logs)[i].at <= now)
    && (forall b :: 0 <= b < |f0| && !IsCyc(t, b) && Untouched(turns, b, t.tasks, |t.cyc|) ==>
          OnceRun(f0[b], f1[b], logs, b, k0, t.nume, t.deno))
    && (forall c :: 0 <= c < |t.cyc| && Untouched(turns, t.tasks + c, t.tasks, |t.cyc|) ==>
          CycProgress(f0[t.tasks + c], f1[t.tasks + c], Flat(logs), t.tasks + c, t.cyc[c].cyctim))
  }

  /** As many ticks as there are turns.  An alarm or time-out that is left alone fires once,
      in the first tick that reaches its time, and never again; a cyclic handler that is
      left alone fires once for each period elapsed in all that time. */
  method Run(t: Timer, turns: seq<Turn>) returns (ghost logs: seq<seq<Fired>>)
    requires t.Valid()
    modifies t, t.ev, t.ev.heap, t.ev.index, t.tmo, t.cycsta, t.evttim, t.almsta
    ensures t.Valid() && |logs| == |turns| && t.tick == old(t.tick) + |turns| && t.now == At(t.tick, t.nume, t.deno)
    ensures forall b :: 0 <= b < |t.Fires()| && !IsCyc(t, b) && Untouched(turns, b, t.tasks, |t.cyc|) ==>
      OnceRun(old(t.Fires())[b], t.Fires()[b], logs, b, old(t.tick), t.nume, t.deno)
    ensures forall c :: 0 <= c < |t.cyc| && Untouched(turns, t.tasks + c, t.tasks, |t.cyc|) ==>
      CycRun(old(t.Fires())[t.tasks + c], t.Fires()[t.tasks + c], logs, t.tasks + c, t.cyc[c].cyctim, t.now)
  {
    hide Rel, Ordered, Indexed, Due, OnceRun, CycRun, Untouched, Timer.Owned, RunOk, TurnOk;
    ghost var f0 := t.Fires();
    logs := [];
    RunStart(t, turns, f0);
    for n := 0 to |turns|
      invariant t.Valid() && |logs| == n && t.tick == old(t.tick) + n
      invariant RunOk(t, turns, f0, t.Fires(), logs, old(t.tick), t.now)
    {
      ghost var f, now0 := t.Fires(), t.now;
      ghost var log := OneTurn(t, turns[n]);
      RunMore(t, turns, f0, f, t.Fires(), logs, log, old(t.tick), now0);
      logs := logs + [log];
    }
    RunDone(t, turns, f0, logs, old(t.tick));
  }

  lemma RunStart(t: Timer, turns: seq<Turn>, f0: seq<Option<nat>>)
    requires t.Valid() && f0 == t.Fires()
    ensures RunOk(t, turns, f0, f0, [], t.tick, t.now)
  {
    hide Rel, Ordered, Indexed, Due, CycProgress, Timer.Owned;
    ClockAt(t.tick, t.nume, t.deno, t.now, t.nextAbs, t.nextSubtime);
    forall c | 0 <= c < |t.cyc|
      ensures CycProgress(f0[t.tasks + c], f0[t.tasks + c], Flat([]), t.tasks + c, t.cyc[c].cyctim)
    {
      NothingYet(f0[t.tasks + c], t.tasks + c, t.now, t.cyc[c].cyctim);
    }
  }

  lemma RunMore(t: Timer, turns: seq<Turn>, f0: seq<Option<nat>>, f: seq<Option<nat>>, f1: seq<Option<nat>>,
                logs: seq<seq<Fired>>, log: seq<Fired>, k0: nat, now0: nat)
    requires t.Valid() && |logs| < |turns| && t.tick == k0 + |logs| + 1 && now0 <= t.now
    requires RunOk(t, turns, f0, f, logs, k0, now0) && TurnOk(t, turns[|logs|], f, f1, log, t.now)
    ensures RunOk(t, turns, f0, f1, logs + [log], k0, t.now)
  {
    hide Count, Rel, Ordered, Indexed, Due, At, OnceRun, CycProgress, Flat, Leaves, Later, AtIts, Timer.Owned;
    ClockAt(t.tick, t.nume, t.deno, t.now, t.nextAbs, t.nextSubtime);
    FlatMore(logs, log);
    forall b | 0 <= b < |f0| && !IsCyc(t, b) && Untouched(turns, b, t.tasks, |t.cyc|)
      ensures OnceRun(f0[b], f1[b], logs + [log], b, k0, t.nume, t.deno)
    {
      assert Leaves(turns[|logs|], b, t.tasks, |t.cyc|);
      OnceRunMore(f0[b], f[b], f1[b], logs, log, b, k0, t.nume, t.deno);
    }
    forall c | 0 <= c < |t.cyc| && Untouched(turns, t.tasks + c, t.tasks, |t.cyc|)
      ensures CycProgress(f0[t.tasks + c], f1[t.tasks + c], Flat(logs + [log]), t.tasks + c, t.cyc[c].cyctim)
    {
      assert Leaves(turns[|logs|], t.tasks + c, t.tasks, |t.cyc|);
      CycJoin(f0[t.tasks + c], f[t.tasks + c], f1[t.tasks + c], Flat(logs), log, t.tasks + c, t.cyc[c].cyctim);
    }
  }

  lemma RunDone(t: Timer, turns: seq<Turn>, f0: seq<Option<nat>>, logs: seq<seq<Fired>>, k0: nat)
    requires t.Valid() && RunOk(t, turns, f0, t.Fires(), logs, k0, t.now)
    ensures t.now == At(t.tick, t.nume, t.deno) && |f0| == |t.Fires()|
    ensures forall b :: 0 <= b < |f0| && !IsCyc(t, b) && Untouched(turns, b, t.tasks, |t.cyc|) ==>
      OnceRun(f0[b], t.Fires()[b], logs, b, k0, t.nume, t.deno)
    ensures forall c :: 0 <= c < |t.cyc| && Untouched(turns, t.tasks + c, t.tasks, |t.cyc|) ==>
      CycRun(f0[t.tasks + c], t.Fires()[t.tasks + c], logs, t.tasks + c, t.cyc[c].cyctim, t.now)
  {
    hide Count, Rel, Ordered, Indexed, Due, At, CycProgress, OnceRun, Flat, Leaves, CycRun, Timer.Owned;
    ClockAt(t.tick, t.nume, t.deno, t.now, t.nextAbs, t.nextSubtime);
    forall c | 0 <= c < |t.cyc| && Untouched(turns, t.tasks + c, t.tasks, |t.cyc|)
      ensures CycRun(f0[t.tasks + c], t.Fires()[t.tasks + c], logs, t.tasks + c, t.cyc[c].cyctim, t.now)
    {
      CycDone(f0[t.tasks + c], t.Fires()[t.tasks + c], logs, t.tasks + c, t.cyc[c].cyctim, t.now);
    }
  }

  // ---- the timing guarantee -----------------------------------------------------------------------------

  /** An event asked for after tick k with relative time r, over the ticks k + 1, k + 2, ...:
      it fires in at most one of them, and that is in time for r; and once r + 1 has passed
      since tick k + 1, it has fired. */
  ghost predicate FiresInTime(logs: seq<seq<Fired>>, b: nat, k: nat, r: nat, nume: nat, deno: nat) {
    && (forall i :: 0 <= i < |logs| ==> Count(logs[i], b) <= 1)
    && (forall i :: 0 <= i < |logs| && Count(logs[i], b) == 1 ==> InTime(k, k + 1 + i, r, nume, deno))
    && Count(Flat(logs), b) <= 1
    && ((k + |logs|) * nume - (k + 1) * nume >= (r + 1) * deno ==> Count(Flat(logs), b) == 1)
  }

  lemma {:induction false} OnceInAll(f: Option<nat>, logs: seq<seq<Fired>>, b: nat, k: nat, nume: nat, deno: nat)
    requires deno > 0 && (f.Some? ==> At(k, nume, deno) < f.value)
    requires forall i :: 0 <= i < |logs| ==> Count(logs[i], b) == if DueIn(f, k + i, nume, deno) then 1 else 0
    ensures Count(Flat(logs), b) == if f.Some? && f.value <= At(k + |logs|, nume, deno) then 1 else 0
  {
    hide At;
    if logs != [] {
      var l := |logs| - 1;
      OnceInAll(f, logs[..l], b, k, nume, deno);
      CountJoin(Flat(logs[..l]), logs[l], b);
      AtMono(k + l, k + l + 1, nume, deno);
    }
  }

  lemma Reached(k: nat, nume: nat, deno: nat, now: nat, next: nat, sub: nat, r: nat, j: nat)
    requires TickOk(k, nume, deno, now, next, sub) && j * nume - (k + 1) * nume >= (r + 1) * deno
    ensures Base(next, sub) + r <= At(j, nume, deno)
  {
    BaseLater(k, nume, deno, now, next, sub);
    AtBounds(j, nume, deno);
    var b, a := Base(next, sub), At(j, nume, deno);
    assert (b + r) * deno == (b - 1) * deno + (r + 1) * deno;
    if a + 1 <= b + r {
      MulMono(a + 1, b + r, deno);
    }
  }

  lemma OnceInTime(k: nat, nume: nat, deno: nat, now: nat, next: nat, sub: nat, r: nat,
                   f1: Option<nat>, logs: seq<seq<Fired>>, b: nat)
    requires TickOk(k, nume, deno, now, next, sub)
    requires OnceRun(Some(Base(next, sub) + r), f1, logs, b, k, nume, deno)
    ensures FiresInTime(logs, b, k, r, nume, deno)
  {
    hide TickOk, At, InTime, Base, Count, Flat;
    ClockAt(k, nume, deno, now, next, sub);
    BaseLater(k, nume, deno, now, next, sub);
    OnceInAll(Some(Base(next, sub) + r), logs, b, k, nume, deno);
    forall i | 0 <= i < |logs| && Count(logs[i], b) == 1 ensures InTime(k, k + 1 + i, r, nume, deno) {
      FiredInTime(k, nume, deno, now, next, sub, r, k + 1 + i);
    }
    if (k + |logs|) * nume - (k + 1) * nume >= (r + 1) * deno {
      Reached(k, nume, deno, now, next, sub, r, k + |logs|);
    }
  }

  /** sta_alm, then any ticks in which nobody stops or restarts the alarm: it fires once and
      in time. */
  method AlarmRun(t: Timer, a: nat, almtim: nat, turns: seq<Turn>) returns (ghost logs: seq<seq<Fired>>)
    requires t.Valid() && a < t.alms && almtim <= t.tmax
    requires Untouched(turns, t.tasks + |t.cyc| + a, t.tasks, |t.cyc|)
    modifies t, t.ev, t.ev.heap, t.ev.index, t.tmo, t.cycsta, t.evttim, t.almsta
    ensures t.Valid() && |logs| == |turns|
    ensures FiresInTime(logs, t.tasks + |t.cyc| + a, old(t.tick), almtim, t.nume, t.deno)
  {
    hide Rel, TickOk, Ordered, Indexed, Due, Untouched, Timer.Owned, Base, FiresInTime, CycRun, OnceRun, At;
    ghost var k, now, next, sub := t.tick, t.now, t.nextAbs, t.nextSubtime;
    var _ := t.StaAlm(a, almtim);
    logs := Run(t, turns);
    OnceInTime(k, t.nume, t.deno, now, next, sub, almtim, t.Fires()[t.tasks + |t.cyc| + a], logs, t.tasks + |t.cyc| + a);
  }

  /** A wait with a time limit, then any ticks in which nobody ends the wait: it times out
      once and in time. */
  method WaitRun(t: Timer, i: nat, tmout: nat, turns: seq<Turn>) returns (ghost logs: seq<seq<Fired>>)
    requires t.Valid() && i < t.tasks && !t.tmo[i] && tmout <= t.tmax && Untouched(turns, i, t.tasks, |t.cyc|)
    modifies t, t.ev, t.ev.heap, t.ev.index, t.tmo, t.cycsta, t.evttim, t.almsta
    ensures t.Valid() && |logs| == |turns|
    ensures FiresInTime(logs, i, old(t.tick), tmout, t.nume, t.deno)
  {
    hide Rel, TickOk, Ordered, Indexed, Due, Untouched, Timer.Owned, Base, FiresInTime, CycRun, OnceRun, At;
    ghost var k, now, next, sub := t.tick, t.now, t.nextAbs, t.nextSubtime;
    t.StartWait(i, tmout);
    logs := Run(t, turns);
    OnceInTime(k, t.nume, t.deno, now, next, sub, tmout, t.Fires()[i], logs, i);
  }

  /** sta_cyc, then any ticks in which nobody stops or restarts the handler: it fires at its
      phase after base_time and then once for each period elapsed. */
  method CyclicRun(t: Timer, c: nat, turns: seq<Turn>) returns (ghost logs: seq<seq<Fired>>)
    requires t.Valid() && c < |t.cyc| && Untouched(turns, t.tasks + c, t.tasks, |t.cyc|)
    modifies t, t.ev, t.ev.heap, t.ev.index, t.tmo, t.cycsta, t.evttim, t.almsta
    ensures t.Valid() && |logs| == |turns|
    ensures var t0 := old(Base(t.nextAbs, t.nextSubtime)) + t.cyc[c].cycphs; var log := Flat(logs);
      && Count(log, t.tasks + c) == Left(Some(t0), t.cyc[c].cyctim, At(old(t.tick) + |turns|, t.nume, t.deno))
      && Periodic(log, t.tasks + c, t0, t.cyc[c].cyctim)
  {
    hide Rel, TickOk, Ordered, Indexed, Due, Untouched, Timer.Owned, Base, OnceRun, At, Left, Periodic, Nth;
    t.StaCyc(c);
    logs := Run(t, turns);
  }
}
