/** The clock and the firing loop: fractional ticks without drift, cyclic and alarm
    handlers, time-outs, and the tick that fires what is due.

    Times of the C code are unsigned and wrap.  The ghost fields are the same times
    without wrapping; what is promised is stated in them. */
module TimeEvent {
  import opened Arith
  import opened Lists
  import opened TimeHeap
  import opened EventHeap
  import K = KernelSpec

  /** A cyclic handler initialization block. */
  datatype Cyc = Cyc(cyctim: nat, cycphs: nat)

  /** What a handler, or an interrupt let in while it runs, may do to the events. */
  datatype Act = StaAlm(alm: nat, almtim: nat) | StpAlm(alm: nat) | EndWait(task: nat)

  datatype Fired = Fired(blk: nat, at: nat)

  // ---- the tick arithmetic ----------------------------------------------------------

  /** After tick k, next_time and next_subtime are the quotient and the remainder of the
      exact time of tick k + 1: nothing is ever lost. */
  ghost predicate TickOk(k: nat, nume: nat, deno: nat, now: nat, next: nat, sub: nat) {
    && deno > 0 && nume > 0 && sub < deno
    && next * deno + sub == (k + 1) * nume
    && now * deno <= k * nume < (now + 1) * deno
  }

  /** base_time. */
  function Base(next: nat, sub: nat): nat {
    next + (if sub > 0 then 1 else 0)
  }

  lemma TickFirst(nume: nat, deno: nat)
    requires deno > 0 && nume > 0
    ensures TickOk(0, nume, deno, 0, nume / deno, nume % deno)
  {
  }

  /** The update of signal_time. */
  lemma TickNext(k: nat, nume: nat, deno: nat, now: nat, next: nat, sub: nat)
    requires TickOk(k, nume, deno, now, next, sub)
    ensures var sub1 := sub + nume % deno; var next1 := next + nume / deno;
      && (sub1 >= deno ==> TickOk(k + 1, nume, deno, next, next1 + 1, sub1 - deno))
      && (sub1 < deno ==> TickOk(k + 1, nume, deno, next, next1, sub1))
  {
    var q, r := nume / deno, nume % deno;
    assert nume == q * deno + r;
    assert (next + q) * deno == next * deno + q * deno;
    assert (next + q + 1) * deno == next * deno + q * deno + deno;
    assert (k + 2) * nume == (k + 1) * nume + nume;
    assert (next + 1) * deno == next * deno + deno;
  }

  /** base_time is the first whole time not before the next tick, so always later than
      current_time. */
  lemma BaseLater(k: nat, nume: nat, deno: nat, now: nat, next: nat, sub: nat)
    requires TickOk(k, nume, deno, now, next, sub)
    ensures now < Base(next, sub)
    ensures (Base(next, sub) - 1) * deno < (k + 1) * nume <= Base(next, sub) * deno
    ensures now <= next
  {
    var b := Base(next, sub);
    assert (b - 1) * deno == b * deno - deno;
    assert (next + 1) * deno == next * deno + deno;
    assert (k + 1) * nume == k * nume + nume;
    if b <= now {
      assert b * deno <= now * deno by { MulMono(b, now, deno); }
    }
    if next < now {
      MulMono(next + 1, now, deno);
    }
  }

  /** The new next_time and next_subtime that signal_time computes. */
  function NextTick(next: nat, sub: nat, nume: nat, deno: nat): (nat, nat)
    requires deno > 0
  {
    if sub + nume % deno >= deno then (next + nume / deno + 1, sub + nume % deno - deno)
    else (next + nume / deno, sub + nume % deno)
  }

  /** One tick: the clock stays exact, and everything asked for during the tick stays
      within one word of the time of the tick before. */
  lemma OneTick(k: nat, nume: nat, deno: nat, now: nat, next: nat, sub: nat)
    requires TickOk(k, nume, deno, now, next, sub)
    ensures var (next1, sub1) := NextTick(next, sub, nume, deno);
      && TickOk(k + 1, nume, deno, next, next1, sub1)
      && Base(next1, sub1) <= now + 2 * (nume / deno) + 3
      && now <= next
  {
    TickNext(k, nume, deno, now, next, sub);
    BaseLater(k, nume, deno, now, next, sub);
    NextNear(k, nume, deno, now, next, sub);
  }

  lemma NextNear(k: nat, nume: nat, deno: nat, now: nat, next: nat, sub: nat)
    requires TickOk(k, nume, deno, now, next, sub)
    ensures next <= now + nume / deno + 1
  {
    var q := nume / deno;
    assert nume < (q + 1) * deno by {
      assert (q + 1) * deno == q * deno + deno;
    }
    assert (now + q + 2) * deno == (now + 1) * deno + (q + 1) * deno;
    assert (k + 1) * nume == k * nume + nume;
    if next >= now + q + 2 {
      MulMono(now + q + 2, next, deno);
    }
  }

  /** Never early: an event asked for after tick k with relative time r that fires at
      tick j fires at least r after the call, which was before tick k + 1. */
  lemma NeverEarly(k: nat, nume: nat, deno: nat, now: nat, next: nat, sub: nat, r: nat, j: nat, fired: nat)
    requires TickOk(k, nume, deno, now, next, sub)
    requires fired * deno <= j * nume && Base(next, sub) + r <= fired
    ensures j * nume - (k + 1) * nume >= r * deno && j > k
  {
    var b := Base(next, sub);
    BaseLater(k, nume, deno, now, next, sub);
    MulMono(b + r, fired, deno);
    assert (b + r) * deno == b * deno + r * deno;
    assert (k + 1) * nume == k * nume + nume;
    if j <= k {
      MulMono(j, k, nume);
    }
  }

  /** Never late: a tick j that does not fire it yet, its current_time being before the
      event time, comes less than r + 1 after tick k + 1. */
  lemma NotLate(k: nat, nume: nat, deno: nat, now: nat, next: nat, sub: nat, r: nat, j: nat, current: nat)
    requires TickOk(k, nume, deno, now, next, sub)
    requires j * nume < (current + 1) * deno && current < Base(next, sub) + r
    ensures j * nume - (k + 1) * nume < (r + 1) * deno
  {
    var b := Base(next, sub);
    BaseLater(k, nume, deno, now, next, sub);
    MulMono(current + 1, b + r, deno);
    assert (b + r) * deno == (b - 1) * deno + (r + 1) * deno;
  }

  // ---- event times without wrapping, and what is left to fire -----------------------------

  /** How many times block b is due up to now: a cyclic handler once for every period. */
  ghost function Left(f: Option<nat>, period: nat, now: nat): nat {
    if f.None? || f.value > now then 0
    else if period == 0 then 1
    else (now - f.value) / period + 1
  }

  /** The number of firings left, counting block b with period periods[b]. */
  ghost function Pending(fires: seq<Option<nat>>, periods: seq<nat>, now: nat): nat
    requires |periods| == |fires|
  {
    if fires == [] then 0
    else Left(fires[0], periods[0], now) + Pending(fires[1..], periods[1..], now)
  }

  lemma {:induction false} PendingSet(fires: seq<Option<nat>>, periods: seq<nat>, now: nat, b: nat, f: Option<nat>)
    requires |periods| == |fires| && b < |fires|
    ensures Pending(fires[b := f], periods, now)
      == Pending(fires, periods, now) - Left(fires[b], periods[b], now) + Left(f, periods[b], now)
  {
    if b == 0 {
      assert fires[0 := f][1..] == fires[1..];
    } else {
      PendingSet(fires[1..], periods[1..], now, b - 1, f);
      assert fires[b := f][1..] == fires[1..][b - 1 := f];
    }
  }

  /** A cyclic handler that is due and is registered again one period later has one
      firing less to come. */
  lemma LeftStep(t: nat, period: nat, now: nat)
    requires t <= now && period > 0
    ensures Left(Some(t + period), period, now) + 1 == Left(Some(t), period, now)
  {
    var d := now - t;
    if t + period <= now {
      DivStep(d, period);
    } else {
      DivSmall(d, period);
    }
  }

  /** The n-th time after t0 at which a handler of the given period fires. */
  ghost function Nth(t0: nat, n: nat, period: nat): nat {
    t0 + n * period
  }

  lemma NthNext(t0: nat, n: nat, period: nat)
    ensures Nth(t0, n + 1, period) == Nth(t0, n, period) + period
  {
    assert (n + 1) * period == n * period + period;
  }

  ghost function Count(log: seq<Fired>, b: nat): nat {
    if log == [] then 0
    else Count(log[..|log| - 1], b) + (if log[|log| - 1].blk == b then 1 else 0)
  }

  /** The firings of block b in the log are t0, t0 + period, t0 + 2 * period, ... */
  ghost predicate Periodic(log: seq<Fired>, b: nat, t0: nat, period: nat) {
    forall i :: 0 <= i < |log| && log[i].blk == b ==> log[i].at == Nth(t0, Count(log[..i], b), period)
  }

  ghost predicate InOrder(log: seq<Fired>) {
    forall i, j :: 0 <= i < j < |log| ==> log[i].at <= log[j].at
  }

  /** The action stops or restarts block b. */
  predicate Touches(act: Act, b: nat, tasks: nat, cycs: nat) {
    match act
    case StaAlm(a, _) => b == tasks + cycs + a
    case StpAlm(a) => b == tasks + cycs + a
    case EndWait(t) => b == t && t < tasks
  }

  /** What one action does to the event times; base is base_time. */
  ghost function ActOn(fires: seq<Option<nat>>, act: Act, base: nat, tasks: nat, cycs: nat, tmax: nat): (r: seq<Option<nat>>)
    requires tasks + cycs <= |fires|
    ensures |r| == |fires|
    ensures forall b :: 0 <= b < |r| && r[b] != fires[b] ==>
      !(tasks <= b < tasks + cycs) && Touches(act, b, tasks, cycs) && (r[b] == None || r[b].value >= base)
  {
    match act
    case StaAlm(a, r) =>
      if tasks + cycs + a < |fires| && r <= tmax then fires[tasks + cycs + a := Some(base + r)] else fires
    case StpAlm(a) => if tasks + cycs + a < |fires| then fires[tasks + cycs + a := None] else fires
    case EndWait(t) => if t < tasks then fires[t := None] else fires
  }

  /** What a sequence of actions does. */
  ghost function ActsOn(fires: seq<Option<nat>>, acts: seq<Act>, base: nat, tasks: nat, cycs: nat, tmax: nat): (r: seq<Option<nat>>)
    requires tasks + cycs <= |fires|
    ensures |r| == |fires|
    ensures forall b :: 0 <= b < |r| && r[b] != fires[b] ==>
      !(tasks <= b < tasks + cycs) && (r[b] == None || r[b].value >= base)
      && exists i :: 0 <= i < |acts| && Touches(acts[i], b, tasks, cycs)
    decreases |acts|
  {
    if acts == [] then fires
    else ActsOn(ActOn(fires, acts[0], base, tasks, cycs, tmax), acts[1..], base, tasks, cycs, tmax)
  }

  /** Handlers add nothing that is due in the current tick. */
  lemma {:induction false} PendingLess(f0: seq<Option<nat>>, f1: seq<Option<nat>>, periods: seq<nat>, now: nat)
    requires |periods| == |f0| == |f1|
    requires forall b :: 0 <= b < |f0| && f1[b] != f0[b] ==> f1[b] == None || f1[b].value > now
    ensures Pending(f1, periods, now) <= Pending(f0, periods, now)
  {
    if f0 != [] {
      PendingLess(f0[1..], f1[1..], periods[1..], now);
    }
  }

  /** A cyclic handler that was registered at f0 has fired at f0, f0 + period, ... and is
      now registered one period after the last. */
  ghost predicate CycProgress(f0: Option<nat>, f: Option<nat>, log: seq<Fired>, b: nat, period: nat) {
    match f0
    case None => f == None && Count(log, b) == 0
    case Some(t0) => f == Some(Nth(t0, Count(log, b), period)) && Periodic(log, b, t0, period)
  }

  lemma {:induction false} NoneYet(log: seq<Fired>, b: nat)
    requires forall i :: 0 <= i < |log| ==> log[i].blk != b
    ensures Count(log, b) == 0
  {
    if log != [] {
      NoneYet(log[..|log| - 1], b);
    }
  }

  lemma CountSnoc(log: seq<Fired>, e: Fired, b: nat)
    ensures Count(log + [e], b) == Count(log, b) + (if e.blk == b then 1 else 0)
  {
    assert (log + [e])[..|log|] == log;
  }

  lemma PrefixSnoc(log: seq<Fired>, e: Fired, i: nat)
    requires i <= |log|
    ensures (log + [e])[..i] == log[..i]
  {
  }

  lemma InOrderSnoc(log: seq<Fired>, e: Fired)
    requires InOrder(log) && forall i :: 0 <= i < |log| ==> log[i].at <= e.at
    ensures InOrder(log + [e])
  {
  }

  /** The firing e seen from a cyclic handler. */
  lemma CycStep(f0: Option<nat>, f: Option<nat>, log: seq<Fired>, b: nat, period: nat, e: Fired)
    requires CycProgress(f0, f, log, b, period)
    requires e.blk == b ==> f == Some(e.at)
    ensures CycProgress(f0, if e.blk == b then Some(e.at + period) else f, log + [e], b, period)
  {
    hide Nth, Count;
    CountSnoc(log, e, b);
    var log1 := log + [e];
    if f0.Some? {
      NthNext(f0.value, Count(log, b), period);
      forall i | 0 <= i < |log1| && log1[i].blk == b ensures log1[i].at == Nth(f0.value, Count(log1[..i], b), period) {
        PrefixSnoc(log, e, i);
        if i == |log| {
          assert log[..i] == log;
        }
      }
    }
  }

  /** With nothing due left, a cyclic handler has fired once for every period elapsed. */
  lemma PeriodsElapsed(t0: nat, period: nat, n: nat, now: nat, log: seq<Fired>, b: nat)
    requires period > 0 && Periodic(log, b, t0, period) && Count(log, b) == n && now < Nth(t0, n, period)
    requires forall i :: 0 <= i < |log| ==> log[i].at <= now
    ensures n == Left(Some(t0), period, now)
  {
    if n > 0 {
      var i := LastOf(log, b);
      NthNext(t0, n - 1, period);
      NthLeft(t0, period, n - 1, now);
    } else {
      NthZero(t0, period);
    }
  }

  lemma NthZero(t0: nat, period: nat)
    ensures Nth(t0, 0, period) == t0
  {
  }

  lemma NthLeft(t0: nat, period: nat, n: nat, now: nat)
    requires period > 0 && Nth(t0, n, period) <= now < Nth(t0, n + 1, period)
    ensures t0 <= now && Left(Some(t0), period, now) == n + 1
  {
    NthNext(t0, n, period);
    assert n * period >= 0;
    DivIs(now - t0, period, n);
  }

  lemma {:induction false} LastOf(log: seq<Fired>, b: nat) returns (i: nat)
    requires Count(log, b) > 0
    ensures i < |log| && log[i].blk == b && Count(log[..i], b) == Count(log, b) - 1
  {
    var l := |log| - 1;
    if log[l].blk == b {
      i := l;
    } else {
      i := LastOf(log[..l], b);
      assert log[..l][..i] == log[..i];
    }
  }

  lemma {:induction false} Counted(log: seq<Fired>, b: nat, i: nat)
    requires i < |log| && log[i].blk == b
    ensures Count(log, b) > 0
  {
    if i < |log| - 1 {
      Counted(log[..|log| - 1], b, i);
    }
  }

  class Timer {
    const ev: EventHeap
    const tasks: nat
    const cyc: seq<Cyc>
    const alms: nat
    const tmax: nat  // TMAX_RELTIM
    const nume: nat
    const deno: nat
    const tmo: array<bool>     // task i is in a wait with a time limit
    const cycsta: array<bool>
    const evttim: array<nat>   // of each cyclic handler
    const almsta: array<bool>
    var currentTime: nat
    var nextTime: nat
    var nextSubtime: nat
    ghost var tick: nat
    ghost var now: nat
    ghost var nextAbs: nat
    ghost var minAbs: nat

    ghost predicate Fixed()
      reads ev
    {
      && ev.Shaped()
      && ev.index.Length == tasks + |cyc| + alms
      && tmo.Length == tasks && cycsta.Length == |cyc| && evttim.Length == |cyc| && almsta.Length == alms
      && tmo != cycsta && tmo != almsta && cycsta != almsta && evttim != ev.index
      && deno > 0 && nume > 0 && tmax + 2 * (nume / deno) + 4 <= ev.w
      && (forall c :: 0 <= c < |cyc| ==> 0 < cyc[c].cyctim <= tmax && cyc[c].cycphs <= tmax)
    }

    /** The clock fields are the exact times reduced to the word width, and everything
        that can be registered is within one word of min_time. */
    ghost predicate Clock()
      requires ev.w > 0
      reads this`currentTime, this`nextTime, this`nextSubtime, this`tick, this`now, this`nextAbs, this`minAbs
      reads ev`minTime
    {
      && TickOk(tick, nume, deno, now, nextAbs, nextSubtime)
      && currentTime == now % ev.w && nextTime == nextAbs % ev.w && ev.minTime == minAbs % ev.w
      && minAbs <= now && Base(nextAbs, nextSubtime) + tmax < minAbs + ev.w
    }

    /** The exact event time of block b. */
    ghost function Fire(b: nat): Option<nat>
      requires ev.w > 0
      reads this`minAbs, ev, ev.heap, ev.index
    {
      match ev.When(b)
      case None => None
      case Some(t) => Some(minAbs + Rel(ev.w, ev.minTime, t))
    }

    ghost function FiresTo(n: nat): (r: seq<Option<nat>>)
      requires ev.w > 0
      reads this`minAbs, ev, ev.heap, ev.index
      ensures |r| == n && forall b :: 0 <= b < n ==> r[b] == Fire(b)
    {
      if n == 0 then [] else FiresTo(n - 1) + [Fire(n - 1)]
    }

    /** The exact event times of all blocks. */
    ghost function Fires(): (r: seq<Option<nat>>)
      requires ev.w > 0
      reads this`minAbs, ev, ev.heap, ev.index
      ensures |r| == ev.index.Length && forall b :: 0 <= b < |r| ==> r[b] == Fire(b)
    {
      FiresTo(ev.index.Length)
    }

    /** An event block is in the heap exactly while its owner says so; ex is the block
        whose owner is being updated. */
    ghost predicate Owned(ex: nat)
      requires Fixed()
      reads ev, ev.heap, ev.index, tmo, cycsta, evttim, almsta
    {
      && (forall t :: 0 <= t < tasks && t != ex ==> (tmo[t] <==> ev.When(t).Some?))
      && (forall c :: 0 <= c < |cyc| && tasks + c != ex ==>
            ev.When(tasks + c) == if cycsta[c] then Some(evttim[c]) else None)
      && (forall a :: 0 <= a < alms && tasks + |cyc| + a != ex ==> (almsta[a] <==> ev.When(tasks + |cyc| + a).Some?))
    }

    ghost predicate Stable(ex: nat)
      reads this, ev, ev.heap, ev.index, tmo, cycsta, evttim, almsta
    {
      Fixed() && ev.Valid() && Clock() && Owned(ex)
    }

    /** No block. */
    ghost function Nobody(): nat { tasks + |cyc| + alms }

    /** Between calls nothing due is left, and min_time is current_time. */
    ghost predicate Valid()
      reads this, ev, ev.heap, ev.index, tmo, cycsta, evttim, almsta
    {
      && Stable(Nobody()) && minAbs == now
      && (forall b :: 0 <= b < |Fires()| && Fires()[b].Some? ==> now < Fires()[b].value)
    }

    /** initialize_tmevt; the word width must leave room for the longest relative time. */
    constructor (width: nat, ntasks: nat, cycs: seq<Cyc>, nalms: nat, maxrel: nat, ticNume: nat, ticDeno: nat)
      requires ticDeno > 0 && ticNume > 0 && maxrel + 2 * (ticNume / ticDeno) + 4 <= width
      requires forall c :: 0 <= c < |cycs| ==> 0 < cycs[c].cyctim <= maxrel && cycs[c].cycphs <= maxrel
      ensures Valid() && tick == 0 && forall b :: 0 <= b < |Fires()| ==> Fires()[b] == None
    {
      ev := new EventHeap(width, ntasks + |cycs| + nalms);
      tasks, cyc, alms, tmax, nume, deno := ntasks, cycs, nalms, maxrel, ticNume, ticDeno;
      tmo := new bool[ntasks](_ => false);
      cycsta := new bool[|cycs|](_ => false);
      evttim := new nat[|cycs|](_ => 0);
      almsta := new bool[nalms](_ => false);
      currentTime := 0;
      nextTime := 0 + ticNume / ticDeno;
      nextSubtime := ticNume % ticDeno;
      tick, now, nextAbs, minAbs := 0, 0, ticNume / ticDeno, 0;
      new;
      Started();
    }

    lemma Started()
      requires Fixed() && ev.Valid() && ev.minTime == 0 && forall b: nat :: ev.When(b) == None
      requires currentTime == 0 && nextTime == nume / deno && nextSubtime == nume % deno
      requires tick == 0 && now == 0 && minAbs == 0 && nextAbs == nume / deno
      requires (forall i :: 0 <= i < tmo.Length ==> !tmo[i]) && (forall i :: 0 <= i < almsta.Length ==> !almsta[i])
      requires forall i :: 0 <= i < cycsta.Length ==> !cycsta[i]
      ensures Valid() && forall b :: 0 <= b < |Fires()| ==> Fires()[b] == None
    {
      hide TickOk, Rel, Ordered, Indexed, Due;
      TickFirst(nume, deno);
      Small(nume / deno, ev.w);
      Small(0, ev.w);
      forall b | 0 <= b < |Fires()| ensures Fires()[b] == None {
        assert Fires()[b] == Fire(b);
      }
    }

    /** tmevtb_insert of an exact time in the window. */
    method Register(blk: nat, time: nat, ghost at: nat)
      requires Fixed() && ev.Valid() && Clock() && blk < ev.index.Length && ev.When(blk) == None
      requires time == at % ev.w && minAbs <= at < minAbs + ev.w
      modifies ev`lastIndex, ev.heap, ev.index
      ensures ev.Valid() && Fires() == old(Fires())[blk := Some(at)]
      ensures forall b: nat :: ev.When(b) == if b == blk then Some(time) else old(ev.When(b))
    {
      ev.Insert(blk, time);
      RelOf(ev.w, minAbs, at);
    }

    /** tmevtb_dequeue. */
    method Dequeue(blk: nat)
      requires Fixed() && ev.Valid() && blk < ev.index.Length && ev.When(blk).Some?
      modifies ev`lastIndex, ev.heap, ev.index
      ensures ev.Valid() && Fires() == old(Fires())[blk := None]
      ensures forall b: nat :: ev.When(b) == if b == blk then None else old(ev.When(b))
    {
      ev.Delete(blk);
    }

    /** base_time + r, in the arithmetic of the event times. */
    method TimeFromBase(r: nat) returns (time: nat)
      requires Fixed() && Clock() && r <= tmax
      ensures time == (Base(nextAbs, nextSubtime) + r) % ev.w
      ensures minAbs <= now < Base(nextAbs, nextSubtime) && Base(nextAbs, nextSubtime) + r < minAbs + ev.w
    {
      hide TickOk;
      BaseAhead();
      WrapAdd(nextAbs, if nextSubtime > 0 then 1 else 0, ev.w);
      WrapAdd(Base(nextAbs, nextSubtime), r, ev.w);
      var baseTime := (nextTime + (if nextSubtime > 0 then 1 else 0)) % ev.w;
      time := (baseTime + r) % ev.w;
    }

    /** tmevtb_enqueue: at base_time + r. */
    method Enqueue(blk: nat, r: nat)
      requires Fixed() && ev.Valid() && Clock() && blk < ev.index.Length && ev.When(blk) == None && r <= tmax
      modifies ev`lastIndex, ev.heap, ev.index
      ensures ev.Valid() && Fires() == old(Fires())[blk := Some(Base(nextAbs, nextSubtime) + r)]
      ensures forall b: nat :: b != blk ==> ev.When(b) == old(ev.When(b))
      ensures ev.When(blk).Some?
    {
      hide Rel, Clock, Ordered, Indexed, Due;
      var time := TimeFromBase(r);
      Register(blk, time, Base(nextAbs, nextSubtime) + r);
    }

    // ---- the calls that start and stop events -------------------------------------------

    /** sta_cyc: restarting moves the first firing. */
    method StaCyc(c: nat)
      requires Stable(Nobody()) && c < |cyc|
      modifies ev`lastIndex, ev.heap, ev.index, cycsta, evttim
      ensures Stable(Nobody()) && cycsta[c]
      ensures Fires() == old(Fires())[tasks + c := Some(Base(nextAbs, nextSubtime) + cyc[c].cycphs)]
      ensures old(Valid()) ==> Valid()
    {
      hide Rel, Clock, Ordered, Indexed, Due;
      BaseAhead();
      if cycsta[c] {
        Dequeue(tasks + c);
      } else {
        cycsta[c] := true;
      }
      StartCyc(c, old(Fires()));
    }

    /** The end of sta_cyc, with the block of the handler off the heap. */
    method StartCyc(c: nat, ghost f0: seq<Option<nat>>)
      requires Stable(tasks + c) && c < |cyc| && cycsta[c] && ev.When(tasks + c) == None
      requires |f0| == |Fires()| && Fires() == f0[tasks + c := None]
      modifies ev`lastIndex, ev.heap, ev.index, evttim
      ensures Stable(Nobody()) && Fires() == f0[tasks + c := Some(Base(nextAbs, nextSubtime) + cyc[c].cycphs)]
    {
      hide Rel, Clock, Ordered, Indexed, Due, Fires, Owned;
      var time := TimeFromBase(cyc[c].cycphs);
      UpdateTwice(f0, tasks + c, None, Some(Base(nextAbs, nextSubtime) + cyc[c].cycphs));
      EnqueueCyc(c, time, Base(nextAbs, nextSubtime) + cyc[c].cycphs);
    }

    /** tmevtb_enqueue_cyc. */
    method EnqueueCyc(c: nat, time: nat, ghost at: nat)
      requires Stable(tasks + c) && c < |cyc| && ev.When(tasks + c) == None && cycsta[c]
      requires time == at % ev.w && minAbs <= at < minAbs + ev.w
      modifies ev`lastIndex, ev.heap, ev.index, evttim
      ensures Stable(Nobody()) && Fires() == old(Fires())[tasks + c := Some(at)]
      ensures forall b: nat :: ev.When(b) == if b == tasks + c then Some(time) else old(ev.When(b))
    {
      hide Rel, Ordered, Indexed, Due, Clock;
      Register(tasks + c, time, at);
      evttim[c] := time;
    }

    /** stp_cyc. */
    method StpCyc(c: nat)
      requires Stable(Nobody()) && c < |cyc|
      modifies ev`lastIndex, ev.heap, ev.index, cycsta
      ensures Stable(Nobody()) && !cycsta[c] && Fires() == old(Fires())[tasks + c := None]
      ensures old(Valid()) ==> Valid()
    {
      hide Rel, TickOk, Ordered, Indexed, Due, Clock;
      BaseAhead();
      if cycsta[c] {
        cycsta[c] := false;
        Dequeue(tasks + c);
      }
    }

    /** sta_alm and ista_alm. */
    method StaAlm(a: nat, almtim: nat) returns (er: K.Er)
      requires Stable(Nobody()) && a < alms
      modifies ev`lastIndex, ev.heap, ev.index, almsta
      ensures Stable(Nobody()) && er == if almtim <= tmax then K.E_OK else K.E_PAR
      ensures Fires() == if er == K.E_OK
        then old(Fires())[tasks + |cyc| + a := Some(Base(nextAbs, nextSubtime) + almtim)] else old(Fires())
      ensures old(Valid()) ==> Valid()
    {
      hide Rel, TickOk, Ordered, Indexed, Due, Clock;
      BaseAhead();
      if almtim > tmax {
        return K.E_PAR;
      }
      if almsta[a] {
        Dequeue(tasks + |cyc| + a);
      } else {
        almsta[a] := true;
      }
      Enqueue(tasks + |cyc| + a, almtim);
      return K.E_OK;
    }

    /** stp_alm and istp_alm. */
    method StpAlm(a: nat)
      requires Stable(Nobody()) && a < alms
      modifies ev`lastIndex, ev.heap, ev.index, almsta
      ensures Stable(Nobody()) && !almsta[a] && Fires() == old(Fires())[tasks + |cyc| + a := None]
      ensures old(Valid()) ==> Valid()
    {
      hide Rel, TickOk, Ordered, Indexed, Due, Clock;
      BaseAhead();
      if almsta[a] {
        almsta[a] := false;
        Dequeue(tasks + |cyc| + a);
      }
    }

    /** make_wait_tmout with a time limit, by a task that was not waiting. */
    method StartWait(t: nat, tmout: nat)
      requires Stable(Nobody()) && t < tasks && !tmo[t] && tmout <= tmax
      modifies ev`lastIndex, ev.heap, ev.index, tmo
      ensures Stable(Nobody()) && tmo[t]
      ensures Fires() == old(Fires())[t := Some(Base(nextAbs, nextSubtime) + tmout)]
      ensures old(Valid()) ==> Valid()
    {
      hide Rel, TickOk, Ordered, Indexed, Due, Clock;
      BaseAhead();
      tmo[t] := true;
      Enqueue(t, tmout);
    }

    /** wait_dequeue_tmevtb at the end of a wait. */
    method EndWait(t: nat)
      requires Stable(Nobody()) && t < tasks
      modifies ev`lastIndex, ev.heap, ev.index, tmo
      ensures Stable(Nobody()) && !tmo[t] && Fires() == old(Fires())[t := None]
      ensures old(Valid()) ==> Valid()
    {
      hide Rel, TickOk, Ordered, Indexed, Due, Clock;
      BaseAhead();
      if tmo[t] {
        tmo[t] := false;
        Dequeue(t);
      }
    }

    /** tmevt_lefttim: the time left, counted from base_time, or 0 when the next tick
        fires the event. */
    method LeftTime(blk: nat) returns (left: nat)
      requires Valid() && blk < ev.index.Length && ev.When(blk).Some?
      ensures Fire(blk).Some?
      ensures left == if Fire(blk).value <= nextAbs then 0 else Fire(blk).value - Base(nextAbs, nextSubtime)
    {
      hide Ordered;
      var time := ev.heap[ev.index[blk]].time;
      ghost var at := Fire(blk).value;
      BaseLater(tick, nume, deno, now, nextAbs, nextSubtime);
      RelOf(ev.w, minAbs, nextAbs);
      if Le(ev.w, ev.minTime, time, nextTime) {
        return 0;
      }
      var baseTime := TimeFromBase(0);
      RelBack(ev.w, minAbs, time);
      WordDiff(ev.w, time, at, Base(nextAbs, nextSubtime));
      left := Rel(ev.w, baseTime, time);
    }

    // ---- the tick -------------------------------------------------------------------------

    method RunAct(act: Act)
      requires Stable(Nobody())
      modifies ev`lastIndex, ev.heap, ev.index, tmo, almsta
      ensures Stable(Nobody())
      ensures Fires() == ActOn(old(Fires()), act, Base(nextAbs, nextSubtime), tasks, |cyc|, tmax)
    {
      hide Rel, Ordered, Indexed, Due, Clock, Owned;
      match act
      case StaAlm(a, r) =>
        if a < alms {
          var _ := StaAlm(a, r);
        }
      case StpAlm(a) =>
        if a < alms {
          StpAlm(a);
        }
      case EndWait(t) =>
        if t < tasks {
          EndWait(t);
        }
    }

    method RunActs(acts: seq<Act>)
      requires Stable(Nobody())
      modifies ev`lastIndex, ev.heap, ev.index, tmo, almsta
      ensures Stable(Nobody())
      ensures Fires() == ActsOn(old(Fires()), acts, Base(nextAbs, nextSubtime), tasks, |cyc|, tmax)
    {
      hide Fires, Clock, Owned, ActOn;
      var rest := acts;
      while rest != []
        invariant Stable(Nobody())
        invariant ActsOn(Fires(), rest, Base(nextAbs, nextSubtime), tasks, |cyc|, tmax)
          == ActsOn(old(Fires()), acts, Base(nextAbs, nextSubtime), tasks, |cyc|, tmax)
        decreases |rest|
      {
        RunAct(rest[0]);
        rest := rest[1..];
      }
    }

    /** The period of a block: that of its cyclic handler, or 0. */
    ghost function Period(b: nat): nat {
      if tasks <= b < tasks + |cyc| then cyc[b - tasks].cyctim else 0
    }

    ghost function PeriodsTo(n: nat): (r: seq<nat>)
      ensures |r| == n && forall b :: 0 <= b < n ==> r[b] == Period(b)
    {
      if n == 0 then [] else PeriodsTo(n - 1) + [Period(n - 1)]
    }

    ghost function Periods(): (r: seq<nat>) {
      PeriodsTo(tasks + |cyc| + alms)
    }

    /** When block blk, fired at at, is next due: a cyclic handler one period later. */
    ghost function Next(blk: nat, at: nat): Option<nat> {
      if tasks <= blk < tasks + |cyc| then Some(at + cyc[blk - tasks].cyctim) else None
    }

    /** call_cychdr, call_almhdr or the time-out of a task, on a block just taken off the
        heap; acts is what the handler, or an interrupt let in, does. */
    method Callback(blk: nat, acts: seq<Act>, ghost at: nat)
      requires Stable(blk) && blk < ev.index.Length && ev.When(blk) == None
      requires minAbs <= at <= now
      requires tasks <= blk < tasks + |cyc| ==> cycsta[blk - tasks] && evttim[blk - tasks] % ev.w == at % ev.w
      modifies ev`lastIndex, ev.heap, ev.index, tmo, evttim, almsta
      ensures Stable(Nobody())
      ensures Fires() == ActsOn(old(Fires())[blk := Next(blk, at)], acts, Base(nextAbs, nextSubtime), tasks, |cyc|, tmax)
    {
      hide Rel, TickOk, Ordered, Indexed, Due;
      if blk < tasks {
        tmo[blk] := false;
      } else if blk < tasks + |cyc| {
        var c := blk - tasks;
        BaseLater(tick, nume, deno, now, nextAbs, nextSubtime);
        WrapAdd(at, cyc[c].cyctim, ev.w);
        WrapAdd(evttim[c], cyc[c].cyctim, ev.w);
        EnqueueCyc(c, (evttim[c] + cyc[c].cyctim) % ev.w, at + cyc[c].cyctim);
      } else {
        almsta[blk - tasks - |cyc|] := false;
      }
      assert Fires() == old(Fires())[blk := Next(blk, at)];
      RunActs(acts);
    }

    /** The body of the loop of signal_time. */
    method FireTop(acts: seq<Act>) returns (ghost blk: nat, ghost at: nat)
      requires Stable(Nobody()) && ev.lastIndex > 0 && Le(ev.w, ev.minTime, ev.heap[1].time, currentTime)
      modifies ev`lastIndex, ev.heap, ev.index, tmo, evttim, almsta
      ensures Stable(Nobody())
      ensures blk < |old(Fires())| && old(Fires())[blk] == Some(at) && at <= now
      ensures forall b :: 0 <= b < |old(Fires())| && old(Fires())[b].Some? ==> at <= old(Fires())[b].value
      ensures Fires() == ActsOn(old(Fires())[blk := Next(blk, at)], acts, Base(nextAbs, nextSubtime), tasks, |cyc|, tmax)
    {
      hide Fixed, Clock, Owned, ActsOn;
      ghost var f0 := Fires();
      var top, t := PopTop();
      blk, at := top, t;
      UpdateTwice(f0, blk, None, Next(blk, at));
      Callback(top, acts, at);
    }

    /** The root leaves the heap; its owner still counts on it. */
    method PopTop() returns (blk: nat, ghost at: nat)
      requires Stable(Nobody()) && ev.lastIndex > 0 && Le(ev.w, ev.minTime, ev.heap[1].time, currentTime)
      modifies ev`lastIndex, ev.heap, ev.index
      ensures Stable(blk) && blk < ev.index.Length && ev.When(blk) == None
      ensures minAbs <= at <= now && Fires() == old(Fires())[blk := None]
      ensures old(Fires())[blk] == Some(at)
      ensures forall b :: 0 <= b < |old(Fires())| && old(Fires())[b].Some? ==> at <= old(Fires())[b].value
      ensures tasks <= blk < tasks + |cyc| ==> cycsta[blk - tasks] && evttim[blk - tasks] % ev.w == at % ev.w
    {
      hide Ordered, Indexed, Due, Rel;
      TopDue();
      blk := ev.heap[1].blk;
      at := minAbs + Rel(ev.w, ev.minTime, ev.heap[1].time);
      ev.DeleteTop();
      assert Fires() == old(Fires())[blk := None];
    }

    lemma TopDue()
      requires Stable(Nobody()) && ev.lastIndex > 0
      ensures var b := ev.heap[1].blk; var t := ev.heap[1].time; var at := minAbs + Rel(ev.w, ev.minTime, t);
        && b < ev.index.Length && ev.When(b) == Some(t) && Fires()[b] == Some(at) && t % ev.w == at % ev.w
        && (Le(ev.w, ev.minTime, t, currentTime) <==> at <= now)
        && (forall c :: 0 <= c < |Fires()| && Fires()[c].Some? ==> at <= Fires()[c].value)
    {
      var b, t := ev.heap[1].blk, ev.heap[1].time;
      DueAt(ev.heap[..], ev.index[..], ev.lastIndex, 0, 1);
      RelBack(ev.w, minAbs, t);
      BaseLater(tick, nume, deno, now, nextAbs, nextSubtime);
      RelOf(ev.w, minAbs, now);
      var f := Fires();
      assert f[b] == Fire(b);
      forall c | 0 <= c < |f| && f[c].Some? ensures minAbs + Rel(ev.w, ev.minTime, t) <= f[c].value {
        assert f[c] == Fire(c);
        ev.TopFirst(c);
      }
    }

    /** What a tick has done so far, when log is what it has fired. */
    ghost predicate Progress(fires0: seq<Option<nat>>, fires: seq<Option<nat>>, log: seq<Fired>, last: nat, script: nat -> seq<Act>)
      reads this`now, this`minAbs
    {
      && |fires| == |fires0| == tasks + |cyc| + alms
      && InOrder(log) && last <= now
      && (forall i :: 0 <= i < |log| ==> minAbs < log[i].at <= last && log[i].blk < |fires|)
      && (forall b :: 0 <= b < |fires| && fires[b].Some? ==> last <= fires[b].value && minAbs < fires[b].value)
      && (forall c :: 0 <= c < |cyc| ==> CycProgress(fires0[tasks + c], fires[tasks + c], log, tasks + c, cyc[c].cyctim))
      && (forall b :: 0 <= b < |fires| && !(tasks <= b < tasks + |cyc|) ==> OnceProgress(fires0[b], fires[b], log, b, script))
    }

    ghost predicate OnceProgress(f0: Option<nat>, f: Option<nat>, log: seq<Fired>, b: nat, script: nat -> seq<Act>)
      reads this`now
    {
      && (forall i :: 0 <= i < |log| && log[i].blk == b ==> f0 == Some(log[i].at) && Count(log[..i], b) == 0)
      && (f == f0 || f == None || f.value > now)
      && (f == f0 ==> forall i :: 0 <= i < |log| ==> log[i].blk != b)
      && (f != f0 && !Stopped(script, |log|, b) ==> f == None && f0.Some? && Fired(b, f0.value) in log)
    }

    /** One of the first n handlers fired stopped or restarted block b. */
    ghost predicate Stopped(script: nat -> seq<Act>, n: nat, b: nat) {
      exists i, j :: 0 <= i < n && 0 <= j < |script(i)| && Touches(script(i)[j], b, tasks, |cyc|)
    }

    /** The firing e seen from any other block. */
    lemma OnceStep(f0: Option<nat>, f: Option<nat>, f1: Option<nat>, log: seq<Fired>, b: nat, e: Fired, script: nat -> seq<Act>)
      requires OnceProgress(f0, f, log, b, script) && e.at <= now
      requires forall i :: 0 <= i < |log| ==> log[i].at <= now
      requires e.blk == b ==> f == Some(e.at) && (f1 == None || f1.value > now)
      requires e.blk != b && f1 != f ==> f1 == None || f1.value > now
      requires f1 != (if e.blk == b then None else f) ==>
        exists j :: 0 <= j < |script(|log|)| && Touches(script(|log|)[j], b, tasks, |cyc|)
      ensures OnceProgress(f0, f1, log + [e], b, script)
    {
      var log1 := log + [e];
      forall i | 0 <= i < |log1| && log1[i].blk == b ensures f0 == Some(log1[i].at) && Count(log1[..i], b) == 0 {
        PrefixSnoc(log, e, i);
        if i == |log| {
          NoneYet(log, b);
          assert log[..i] == log;
        }
      }
      StoppedMore(script, |log|, b);
      if f1 != f0 && !Stopped(script, |log| + 1, b) {
        if e.blk == b {
          assert log1[|log|] == Fired(b, f0.value);
        } else if Fired(b, f0.value) in log {
          assert Fired(b, f0.value) in log1;
        }
      }
    }

    lemma StoppedMore(script: nat -> seq<Act>, n: nat, b: nat)
      ensures Stopped(script, n, b) ==> Stopped(script, n + 1, b)
    {
    }

    /** One more firing. */
    lemma ProgressStep(fires0: seq<Option<nat>>, fires: seq<Option<nat>>, fires1: seq<Option<nat>>,
                       log: seq<Fired>, last: nat, script: nat -> seq<Act>, blk: nat, at: nat, base: nat)
      requires Fixed() && Progress(fires0, fires, log, last, script) && now < base
      requires blk < |fires| && fires[blk] == Some(at) && at <= now
      requires forall b :: 0 <= b < |fires| && fires[b].Some? ==> at <= fires[b].value
      requires fires1 == ActsOn(fires[blk := Next(blk, at)], script(|log|), base, tasks, |cyc|, tmax)
      ensures Progress(fires0, fires1, log + [Fired(blk, at)], at, script)
      ensures Pending(fires1, Periods(), now) < Pending(fires, Periods(), now)
    {
      hide OnceProgress, CycProgress, ActsOn;
      var e := Fired(blk, at);
      InOrderSnoc(log, e);
      forall c | 0 <= c < |cyc| ensures CycProgress(fires0[tasks + c], fires1[tasks + c], log + [e], tasks + c, cyc[c].cyctim) {
        CycStep(fires0[tasks + c], fires[tasks + c], log, tasks + c, cyc[c].cyctim, e);
      }
      forall b | 0 <= b < |fires| && !(tasks <= b < tasks + |cyc|)
        ensures OnceProgress(fires0[b], fires1[b], log + [e], b, script)
      {
        OnceStep(fires0[b], fires[b], fires1[b], log, b, e, script);
      }
      PendingStep(fires, fires1, blk, at);
    }

    lemma PendingStep(fires: seq<Option<nat>>, fires1: seq<Option<nat>>, blk: nat, at: nat)
      requires Fixed() && |fires1| == |fires| == tasks + |cyc| + alms && blk < |fires| && fires[blk] == Some(at) && at <= now
      requires forall b :: 0 <= b < |fires| && fires1[b] != fires[blk := Next(blk, at)][b] ==>
        fires1[b] == None || fires1[b].value > now
      ensures Pending(fires1, Periods(), now) < Pending(fires, Periods(), now)
    {
      PendingSet(fires, Periods(), now, blk, Next(blk, at));
      PendingLess(fires[blk := Next(blk, at)], fires1, Periods(), now);
      if tasks <= blk < tasks + |cyc| {
        LeftStep(at, Period(blk), now);
      }
    }

    /** What a tick does for a cyclic handler: it fires once for each period elapsed. */
    ghost predicate CycFired(f0: Option<nat>, f1: Option<nat>, log: seq<Fired>, b: nat, period: nat)
      reads this`now
    {
      match f0
      case None => f1 == None && Count(log, b) == 0
      case Some(t0) =>
        var n := Left(Some(t0), period, now);
        Count(log, b) == n && Periodic(log, b, t0, period) && f1 == Some(Nth(t0, n, period))
    }

    /** What a tick does for an alarm or a time-out that no handler stopped or restarted: if
        it is due, it fires once, at its time, and is off the heap; otherwise it stays as it
        is, and does not fire. */
    ghost predicate OnceFired(f0: Option<nat>, f1: Option<nat>, log: seq<Fired>, b: nat, script: nat -> seq<Act>)
      reads this`now
    {
      && (forall i :: 0 <= i < |log| && log[i].blk == b ==> f0 == Some(log[i].at))
      && Count(log, b) <= 1
      && (!Stopped(script, |log|, b) ==>
            && Count(log, b) == (if f0.Some? && f0.value <= now then 1 else 0)
            && f1 == (if f0.Some? && f0.value > now then f0 else None))
    }

    /** The update of the clock at the start of signal_time. */
    method Advance()
      requires Valid()
      modifies this`currentTime, this`nextTime, this`nextSubtime, this`tick, this`now, this`nextAbs
      ensures Stable(Nobody()) && Fires() == old(Fires())
      ensures tick == old(tick) + 1 && now == old(nextAbs) && minAbs <= now
    {
      hide Rel, TickOk, Ordered, Indexed, Due, Owned, Fires, NextTick, Base;
      OneTick(tick, nume, deno, now, nextAbs, nextSubtime);
      StepClock();
    }

    method StepClock()
      requires deno > 0 && ev.w > 0 && nextTime == nextAbs % ev.w
      modifies this`currentTime, this`nextTime, this`nextSubtime, this`tick, this`now, this`nextAbs
      ensures tick == old(tick) + 1 && now == old(nextAbs) && currentTime == now % ev.w
      ensures (nextAbs, nextSubtime) == NextTick(old(nextAbs), old(nextSubtime), nume, deno)
      ensures nextTime == nextAbs % ev.w
    {
      WrapAdd(nextAbs, nume / deno, ev.w);
      WrapAdd(nextAbs + nume / deno, 1, ev.w);
      currentTime := nextTime;
      now := nextAbs;
      nextSubtime := nextSubtime + nume % deno;
      nextTime := (currentTime + nume / deno) % ev.w;
      nextAbs := nextAbs + nume / deno;
      if nextSubtime >= deno {
        nextSubtime := nextSubtime - deno;
        nextTime := (nextTime + 1) % ev.w;
        nextAbs := nextAbs + 1;
      }
      tick := tick + 1;
    }

    lemma BaseAhead()
      requires ev.w > 0 && Clock()
      ensures now < Base(nextAbs, nextSubtime)
    {
      BaseLater(tick, nume, deno, now, nextAbs, nextSubtime);
    }

    lemma NothingDue()
      requires Stable(Nobody())
      requires !(ev.lastIndex > 0 && Le(ev.w, ev.minTime, ev.heap[1].time, currentTime))
      ensures forall b :: 0 <= b < |Fires()| && Fires()[b].Some? ==> now < Fires()[b].value
    {
      hide Rel, Ordered, Indexed, Due;
      if ev.lastIndex > 0 {
        TopDue();
      } else {
        forall b | 0 <= b < |Fires()| ensures Fires()[b] == None {
          assert Fires()[b] == Fire(b);
          if ev.When(b).Some? {
            ev.TopFirst(b);
          }
        }
      }
    }

    /** min_time moves up to current_time. */
    method CloseTick()
      requires Stable(Nobody())
      requires forall b :: 0 <= b < |Fires()| && Fires()[b].Some? ==> now < Fires()[b].value
      modifies this`minAbs, ev`minTime
      ensures Valid() && Fires() == old(Fires())
    {
      hide Rel, Ordered, Indexed;
      BaseLater(tick, nume, deno, now, nextAbs, nextSubtime);
      RelOf(ev.w, minAbs, now);
      forall b: nat | ev.When(b).Some?
        ensures Le(ev.w, ev.minTime, currentTime, ev.When(b).value)
        ensures Rel(ev.w, currentTime, ev.When(b).value) == Rel(ev.w, ev.minTime, ev.When(b).value) - (now - minAbs)
      {
        assert Fires()[b] == Fire(b);
        RelSlide(ev.w, ev.minTime, currentTime, ev.When(b).value);
      }
      ev.Slide(currentTime);
      minAbs := now;
      assert Fires() == old(Fires());
    }

    /** signal_time: the clock goes one tick on and everything due is fired, in order. */
    method SignalTime(script: nat -> seq<Act>) returns (ghost log: seq<Fired>)
      requires Valid()
      modifies this, ev, ev.heap, ev.index, tmo, evttim, almsta
      ensures Valid() && tick == old(tick) + 1 && now == old(nextAbs)
      ensures InOrder(log) && forall i :: 0 <= i < |log| ==> old(now) < log[i].at <= now
      ensures forall c :: 0 <= c < |cyc| ==>
        CycFired(old(Fires())[tasks + c], Fires()[tasks + c], log, tasks + c, cyc[c].cyctim)
      ensures forall b :: 0 <= b < |Fires()| && !(tasks <= b < tasks + |cyc|) ==>
        OnceFired(old(Fires())[b], Fires()[b], log, b, script)
    {
      hide Clock, Owned, Progress, CycFired, OnceFired, Rel, Ordered, Indexed, Due, InOrder;
      Advance();
      ghost var fires0 := Fires();
      ghost var last := minAbs;
      log := [];
      var n := 0;
      ProgressStart(fires0, script);
      while ev.lastIndex > 0 && Le(ev.w, ev.minTime, ev.heap[1].time, currentTime)
        invariant Stable(Nobody()) && n == |log|
        invariant Progress(fires0, Fires(), log, last, script)
        decreases Pending(Fires(), Periods(), now)
        modifies ev`lastIndex, ev.heap, ev.index, tmo, evttim, almsta
      {
        BaseAhead();
        ghost var fires := Fires();
        ghost var blk, at := FireTop(script(n));
        ProgressStep(fires0, fires, Fires(), log, last, script, blk, at, Base(nextAbs, nextSubtime));
        log := log + [Fired(blk, at)];
        last := at;
        n := n + 1;
      }
      NothingDue();
      FinishLog(fires0, Fires(), log, last, script);
      CloseTick();
    }

    lemma ProgressStart(fires0: seq<Option<nat>>, script: nat -> seq<Act>)
      requires |fires0| == tasks + |cyc| + alms && minAbs <= now
      requires forall b :: 0 <= b < |fires0| && fires0[b].Some? ==> minAbs < fires0[b].value
      ensures Progress(fires0, fires0, [], minAbs, script)
    {
      forall c | 0 <= c < |cyc| && fires0[tasks + c].Some? ensures Nth(fires0[tasks + c].value, 0, cyc[c].cyctim) == fires0[tasks + c].value {
        NthZero(fires0[tasks + c].value, cyc[c].cyctim);
      }
    }

    lemma OnceFinish(f0: Option<nat>, f: Option<nat>, log: seq<Fired>, b: nat, script: nat -> seq<Act>)
      requires OnceProgress(f0, f, log, b, script) && (f.Some? ==> now < f.value)
      requires forall i :: 0 <= i < |log| ==> log[i].at <= now
      ensures OnceFired(f0, f, log, b, script)
    {
      if Count(log, b) > 0 {
        var i := LastOf(log, b);
      } else {
        forall i | 0 <= i < |log| ensures log[i].blk != b {
          if log[i].blk == b {
            Counted(log, b, i);
          }
        }
      }
      if f == f0 {
        NoneYet(log, b);
      }
    }

    lemma FinishLog(fires0: seq<Option<nat>>, fires: seq<Option<nat>>, log: seq<Fired>, last: nat, script: nat -> seq<Act>)
      requires Fixed() && Progress(fires0, fires, log, last, script)
      requires forall b :: 0 <= b < |fires| && fires[b].Some? ==> now < fires[b].value
      ensures forall c :: 0 <= c < |cyc| ==> CycFired(fires0[tasks + c], fires[tasks + c], log, tasks + c, cyc[c].cyctim)
      ensures forall b :: 0 <= b < |fires| && !(tasks <= b < tasks + |cyc|) ==> OnceFired(fires0[b], fires[b], log, b, script)
      ensures InOrder(log) && forall i :: 0 <= i < |log| ==> minAbs < log[i].at <= now
    {
      hide InOrder, Nth, Left;
      forall b | 0 <= b < |fires| && !(tasks <= b < tasks + |cyc|) ensures OnceFired(fires0[b], fires[b], log, b, script) {
        OnceFinish(fires0[b], fires[b], log, b, script);
      }
      forall c | 0 <= c < |cyc| ensures CycFired(fires0[tasks + c], fires[tasks + c], log, tasks + c, cyc[c].cyctim) {
        if fires0[tasks + c].Some? {
          PeriodsElapsed(fires0[tasks + c].value, cyc[c].cyctim, Count(log, tasks + c), now, log, tasks + c);
        }
      }
    }
  }

  /** The exact time of an event time reduces to it. */
  lemma RelBack(w: nat, min: nat, t: nat)
    requires w > 0
    ensures (min + Rel(w, min % w, t)) % w == t % w
  {
    var d := t as int - (min % w);
    assert d == d % w + w * (d / w) && min == min % w + w * (min / w);
    assert min + d % w == t + w * (min / w - d / w);
    AddMultiple(t, min / w - d / w, w);
  }

  /** An unsigned difference of reduced times is the exact difference when that fits. */
  lemma WordDiff(w: nat, t: nat, a: nat, b: nat)
    requires w > 0 && t % w == a % w && b <= a < b + w
    ensures Rel(w, b % w, t) == a - b
  {
    RelOf(w, b, a);
    ModDiff(w, b % w, t);
    ModDiff(w, b % w, a);
    ModSelf(w, b);
    ModDiff(w, b, a);
  }

  lemma ModSelf(w: nat, b: nat)
    requires w > 0
    ensures b % w % w == b % w
  {
    Small(b % w, w);
  }

  lemma WrapAdd(a: nat, b: nat, w: nat)
    requires w > 0
    ensures (a % w + b) % w == (a + b) % w
  {
    assert a == a % w + w * (a / w);
    AddMultiple(a % w + b, a / w, w);
  }
}
