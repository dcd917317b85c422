/**
 The pool of FFI worker processes (crates/assetstudio-ffi/src/worker_pool.rs):
 leases under a semaphore, a stack of idle workers, recycling after a number
 of calls, and a reaper for workers idle too long.  Every await is a place
 where other tasks may step in or the future may be dropped.
 */
module WorkerPool {
  import opened Common
  import opened Bytes

  datatype Worker = Worker(id: nat, completedCalls: nat, idleSince: Option<int>)

  /** `maxCalls` zero means no limit; `idleTimeout` zero means no reaping. */
  datatype Config = Config(concurrency: nat, maxCalls: nat, idleTimeout: nat)

  predicate ValidConfig(c: Config) { c.concurrency >= 1 }

  predicate IdleExpired(c: Config, now: int, w: Worker) { w.idleSince.Some? && now - w.idleSince.value >= c.idleTimeout }

  /** What the clock shows at the first, second, ... look of a sweep. */
  type Clock = nat -> int

  /** The workers that are (or are not) expired when looked at, in their order. */
  function Select(c: Config, clock: Clock, ws: seq<Worker>, expired: bool): seq<Worker> {
    if ws == [] then [] else
    var n := |ws| - 1;
    Select(c, clock, ws[..n], expired) + if IdleExpired(c, clock(n), ws[n]) == expired then [ws[n]] else []
  }

  predicate Spent(c: Config, w: Worker) { c.maxCalls > 0 && w.completedCalls >= c.maxCalls }

  /** How often a worker occurs in a list. */
  function Times(ws: seq<Worker>, id: nat): nat {
    if ws == [] then 0 else (if ws[0].id == id then 1 else 0) + Times(ws[1..], id)
  }

  lemma {:induction false} TimesAppend(a: seq<Worker>, b: seq<Worker>, id: nat)
    ensures Times(a + b, id) == Times(a, id) + Times(b, id)
  {
    if a == [] {
      assert a + b == b;
    } else {
      TimesAppend(a[1..], b, id);
      assert (a + b)[1..] == a[1..] + b;
    }
  }

  lemma TimesSnoc(ws: seq<Worker>, w: Worker, id: nat)
    ensures Times(ws + [w], id) == Times(ws, id) + if w.id == id then 1 else 0
  {
    TimesAppend(ws, [w], id);
  }

  lemma SelectSnoc(c: Config, clock: Clock, ws: seq<Worker>, w: Worker, expired: bool)
    ensures Select(c, clock, ws + [w], expired)
            == Select(c, clock, ws, expired) + if IdleExpired(c, clock(|ws|), w) == expired then [w] else []
  {
    assert (ws + [w])[..|ws|] == ws;
  }

  /** Reaping loses and invents nobody. */
  lemma {:induction false} SelectPartitions(c: Config, clock: Clock, ws: seq<Worker>, id: nat)
    ensures Times(Select(c, clock, ws, true), id) + Times(Select(c, clock, ws, false), id) == Times(ws, id)
    ensures |Select(c, clock, ws, true)| + |Select(c, clock, ws, false)| == |ws|
  {
    if ws != [] {
      var n := |ws| - 1;
      SelectPartitions(c, clock, ws[..n], id);
      var b := IdleExpired(c, clock(n), ws[n]);
      hide Times, IdleExpired;
      TimesSnoc(Select(c, clock, ws[..n], b), ws[n], id);
      TimesSnoc(ws[..n], ws[n], id);
      assert ws == ws[..n] + [ws[n]];
      assert Select(c, clock, ws, !b) == Select(c, clock, ws[..n], !b);
    }
  }

  /** What goes is exactly what was expired when looked at, what stays exactly the rest. */
  lemma {:induction false} SelectIff(c: Config, clock: Clock, ws: seq<Worker>, expired: bool, w: Worker)
    ensures w in Select(c, clock, ws, expired) <==>
            exists i :: 0 <= i < |ws| && ws[i] == w
                        && expired == (w.idleSince.Some? && clock(i) - w.idleSince.value >= c.idleTimeout)
  {
    if ws != [] {
      var n := |ws| - 1;
      SelectIff(c, clock, ws[..n], expired, w);
      assert forall i :: 0 <= i < n ==> ws[..n][i] == ws[i];
    }
  }

  /** The shared vector of idle workers and its in-place operations. */
  class Idle {
    var available: seq<Worker>

    constructor ()
      ensures available == []
    {
      available := [];
    }

    method Pop() returns (r: Option<Worker>)
      modifies this
      ensures old(available) == [] ==> r == None && available == []
      ensures old(available) != [] ==>
                && available == old(available)[..|old(available)| - 1]
                && r == Some(old(available)[|old(available)| - 1].(idleSince := None))
    {
      if available == [] {
        return None;
      }
      var w := available[|available| - 1];
      available := available[..|available| - 1];
      r := Some(w.(idleSince := None));
    }

    /** A spent worker is to be killed instead of being returned. */
    method ReturnOrRecycle(c: Config, w: Worker, now: int) returns (kill: bool)
      modifies this
      ensures kill <==> c.maxCalls > 0 && w.completedCalls >= c.maxCalls
      ensures available == old(available) + if kill then [] else [w.(idleSince := Some(now))]
    {
      if c.maxCalls > 0 && w.completedCalls >= c.maxCalls {
        return true;
      }
      available := available + [w.(idleSince := Some(now))];
      kill := false;
    }

    /** The index loop with removal in the middle is an order-preserving filter. */
    method Reap(c: Config, clock: Clock) returns (expired: seq<Worker>)
      modifies this
      ensures c.idleTimeout == 0 ==> expired == [] && available == old(available)
      ensures c.idleTimeout > 0 ==> expired == Select(c, clock, old(available), true)
                                    && available == Select(c, clock, old(available), false)
    {
      expired := [];
      if c.idleTimeout == 0 { return; }
      ghost var all := available;
      var looks, index := 0, 0;
      while index < |available|
        invariant 0 <= index <= |available| && 0 <= looks <= |all|
        invariant available[..index] == Select(c, clock, all[..looks], false)
        invariant expired == Select(c, clock, all[..looks], true)
        invariant available[index..] == all[looks..]
        decreases |available| - index
      {
        var w := available[index];
        assert w == available[index..][0] == all[looks..][0] == all[looks];
        assert all[..looks + 1] == all[..looks] + [w];
        SelectSnoc(c, clock, all[..looks], w, true);
        SelectSnoc(c, clock, all[..looks], w, false);
        assert available[index..][1..] == all[looks..][1..];
        if IdleExpired(c, clock(looks), w) {
          expired := expired + [w];
          available := available[..index] + available[index + 1..];
        } else {
          assert available[..index + 1] == available[..index] + [w];
          index := index + 1;
        }
        looks := looks + 1;
      }
      assert all[..looks] == all && available[..index] == available;
    }
  }

  // ---------------------------------------------------------------- leases

  datatype Phase =
    | Granted                   // holds permits, no worker yet
    | Spawning
    | Held(w: Worker)
    | Returning(w: Worker)      // waiting for the lock on the idle stack
    | Killing(w: Worker)
    | Closing                   // worker handed on, permits not yet released
    | Gone

  datatype Lease = Lease(phase: Phase, exclusive: bool)

  datatype State = State(free: nat, available: seq<Worker>, leases: seq<Lease>, reaping: seq<Worker>,
                         killed: seq<Worker>, dropped: seq<Worker>, spawned: nat, exclusiveCalls: nat)

  datatype Step =
    | Acquire
    | AcquireExclusive
    | PopIdle(i: nat)
    | BeginSpawn(i: nat)
    | SpawnOk(i: nat)
    | SpawnFails(i: nat)
    | CallOk(i: nat)
    | FinishSuccess(i: nat)
    | PushIdle(i: nat, now: int)
    | KillLease(i: nat)
    | KillDone(i: nat)
    | Release(i: nat)
    | DropLease(i: nat)
    | ReapIdle(clock: Clock)
    | ReapKill

  predicate Enabled(c: Config, s: State, step: Step) {
    match step
    case Acquire => s.free >= 1
    case AcquireExclusive => s.free >= c.concurrency
    case PopIdle(i) => i < |s.leases| && s.leases[i] == Lease(Granted, false) && s.available != []
    case BeginSpawn(i) => i < |s.leases| && s.leases[i].phase == Granted && (s.leases[i].exclusive || s.available == [])
    case SpawnOk(i) => i < |s.leases| && s.leases[i].phase == Spawning
    case SpawnFails(i) => i < |s.leases| && s.leases[i].phase == Spawning
    case CallOk(i) => i < |s.leases| && s.leases[i].phase.Held?
    case FinishSuccess(i) => i < |s.leases| && s.leases[i].phase.Held?
    case PushIdle(i, _) => i < |s.leases| && s.leases[i].phase.Returning?
    case KillLease(i) => i < |s.leases| && s.leases[i].phase.Held?
    case KillDone(i) => i < |s.leases| && s.leases[i].phase.Killing?
    case Release(i) => i < |s.leases| && s.leases[i].phase == Closing
    case DropLease(i) => i < |s.leases| && s.leases[i].phase != Gone
    case ReapIdle(_) => c.idleTimeout > 0
    case ReapKill => s.reaping != []
  }

  predicate HasWorker(p: Phase) { p.Held? || p.Returning? || p.Killing? }

  function Permits(c: Config, l: Lease): nat { if l.phase == Gone then 0 else if l.exclusive then c.concurrency else 1 }

  function Set(s: State, i: nat, phase: Phase): State
    requires i < |s.leases|
  {
    s.(leases := s.leases[i := s.leases[i].(phase := phase)])
  }

  function End(c: Config, s: State, i: nat): State
    requires i < |s.leases|
  {
    Set(s, i, Gone).(free := s.free + Permits(c, s.leases[i]))
  }

  function Apply(c: Config, s: State, step: Step): State
    requires Enabled(c, s, step)
  {
    match step
    case Acquire => s.(free := s.free - 1, leases := s.leases + [Lease(Granted, false)])
    case AcquireExclusive =>
      s.(free := s.free - c.concurrency, leases := s.leases + [Lease(Granted, true)], exclusiveCalls := s.exclusiveCalls + 1)
    case PopIdle(i) =>
      var n := |s.available| - 1;
      Set(s, i, Held(s.available[n].(idleSince := None))).(available := s.available[..n])
    case BeginSpawn(i) => Set(s, i, Spawning)
    case SpawnOk(i) => Set(s, i, Held(Worker(s.spawned + 1, 0, None))).(spawned := s.spawned + 1)
    case SpawnFails(i) => End(c, s, i)
    case CallOk(i) =>
      var w := s.leases[i].phase.w;
      Set(s, i, Held(w.(completedCalls := Min(w.completedCalls + 1, TWO64 - 1))))
    case FinishSuccess(i) =>
      var w := s.leases[i].phase.w;
      Set(s, i, if Spent(c, w) then Killing(w) else Returning(w))
    case PushIdle(i, now) =>
      Set(s, i, Closing).(available := s.available + [s.leases[i].phase.w.(idleSince := Some(now))])
    case KillLease(i) => Set(s, i, Killing(s.leases[i].phase.w))
    case KillDone(i) => Set(s, i, Closing).(killed := s.killed + [s.leases[i].phase.w])
    case Release(i) => End(c, s, i)
    case DropLease(i) =>
      End(c, s, i).(dropped := s.dropped + if HasWorker(s.leases[i].phase) then [s.leases[i].phase.w] else [])
    case ReapIdle(clock) =>
      s.(available := Select(c, clock, s.available, false), reaping := s.reaping + Select(c, clock, s.available, true))
    case ReapKill => s.(reaping := s.reaping[1..], killed := s.killed + [s.reaping[0]])
  }

  function Fresh(c: Config): State { State(c.concurrency, [], [], [], [], [], 0, 0) }

  ghost predicate IsRun(c: Config, trace: seq<State>, steps: seq<Step>) {
    && ValidConfig(c)
    && |trace| == |steps| + 1
    && trace[0] == Fresh(c)
    && forall i :: 0 <= i < |steps| ==> Enabled(c, trace[i], steps[i]) && trace[i + 1] == Apply(c, trace[i], steps[i])
  }

  // ---------------------------------------------------------------- sums over leases

  function PermitsOut(c: Config, ls: seq<Lease>): nat {
    if ls == [] then 0 else Permits(c, ls[0]) + PermitsOut(c, ls[1..])
  }

  function Active(l: Lease): nat {
    if l.phase.Spawning? || l.phase.Held? || l.phase.Returning? || (l.phase.Granted? && l.exclusive) then 1 else 0
  }

  /** Leases with a worker or bound to spawn one. */
  function Leased(ls: seq<Lease>): nat {
    if ls == [] then 0 else Active(ls[0]) + Leased(ls[1..])
  }

  function Own(p: Phase, id: nat): nat { if HasWorker(p) && p.w.id == id then 1 else 0 }

  function Owned(ls: seq<Lease>, id: nat): nat {
    if ls == [] then 0 else Own(ls[0].phase, id) + Owned(ls[1..], id)
  }

  lemma {:induction false} SetSums(c: Config, ls: seq<Lease>, i: nat, l: Lease, id: nat)
    requires i < |ls|
    ensures PermitsOut(c, ls[i := l]) == PermitsOut(c, ls) - Permits(c, ls[i]) + Permits(c, l)
    ensures Leased(ls[i := l]) == Leased(ls) - Active(ls[i]) + Active(l)
    ensures Owned(ls[i := l], id) == Owned(ls, id) - Own(ls[i].phase, id) + Own(l.phase, id)
  {
    hide Permits, Active, Own;
    if i == 0 {
      assert ls[0 := l][1..] == ls[1..];
    } else {
      SetSums(c, ls[1..], i - 1, l, id);
      assert ls[i := l][1..] == ls[1..][i - 1 := l];
    }
  }

  lemma {:induction false} AddSums(c: Config, ls: seq<Lease>, l: Lease, id: nat)
    ensures PermitsOut(c, ls + [l]) == PermitsOut(c, ls) + Permits(c, l)
    ensures Leased(ls + [l]) == Leased(ls) + Active(l)
    ensures Owned(ls + [l], id) == Owned(ls, id) + Own(l.phase, id)
  {
    hide Permits, Active, Own;
    if ls == [] {
      assert [] + [l] == [l];
    } else {
      AddSums(c, ls[1..], l, id);
      assert (ls + [l])[1..] == ls[1..] + [l];
    }
  }

  /** A lease holds at least one permit. */
  lemma {:induction false} LeasedWithinPermits(c: Config, ls: seq<Lease>)
    requires ValidConfig(c)
    ensures Leased(ls) <= PermitsOut(c, ls)
  {
    if ls != [] { LeasedWithinPermits(c, ls[1..]); }
  }

  // ---------------------------------------------------------------- invariant

  /** How often a worker occurs anywhere. */
  function Census(s: State, id: nat): nat {
    Times(s.available, id) + Owned(s.leases, id) + Times(s.reaping, id) + Times(s.killed, id) + Times(s.dropped, id)
  }

  /** Fit to be leased again. */
  predicate Rested(c: Config, w: Worker) { w.idleSince.Some? && !Spent(c, w) }

  // ---------------------------------------------------------------- steps keep it

  ghost predicate PermitsOk(c: Config, s: State) { s.free + PermitsOut(c, s.leases) == c.concurrency }

  /** Idle and leased workers together. */
  function Load(s: State): nat { |s.available| + Leased(s.leases) }

  /** The numbers: permits, and idle plus leased workers. */
  ghost predicate Counts(c: Config, s: State) { PermitsOk(c, s) && Load(s) <= c.concurrency + s.exclusiveCalls }

  ghost predicate Fit(c: Config, s: State) {
    && (forall i :: 0 <= i < |s.available| ==> Rested(c, s.available[i]))
    && (forall i :: 0 <= i < |s.leases| && s.leases[i].phase.Returning? ==> !Spent(c, s.leases[i].phase.w))
  }

  ghost predicate Conserved(s: State, id: nat) { Census(s, id) == if 1 <= id <= s.spawned then 1 else 0 }

  predicate Ends(step: Step) { step.SpawnFails? || step.Release? || step.DropLease? }

  predicate Global(step: Step) { step.Acquire? || step.AcquireExclusive? || step.ReapIdle? || step.ReapKill? }

  /** What a step does to the load: only an exclusive acquisition adds to it beyond the concurrency. */
  ghost predicate LoadMoves(c: Config, s: State, t: State, step: Step) {
    && PermitsOk(c, t)
    && (!step.AcquireExclusive? ==> Load(t) <= Max(Load(s), c.concurrency))
    && (step.AcquireExclusive? ==> Leased(s.leases) == 0 && Load(t) == |s.available| + 1)
  }

  lemma EndMovesLoad(c: Config, s: State, step: Step)
    requires PermitsOk(c, s) && Enabled(c, s, step) && Ends(step)
    ensures LoadMoves(c, s, Apply(c, s, step), step)
  {
    hide PermitsOut, Leased;
    SetSums(c, s.leases, step.i, s.leases[step.i].(phase := Gone), 0);
  }

  /** A spawn is begun by an exclusive lease, which was counted already, or when nobody is idle. */
  lemma SpawnMovesLoad(c: Config, s: State, step: Step)
    requires ValidConfig(c) && PermitsOk(c, s) && Enabled(c, s, step) && step.BeginSpawn?
    ensures LoadMoves(c, s, Apply(c, s, step), step)
  {
    hide PermitsOut, Leased;
    SetSums(c, s.leases, step.i, s.leases[step.i].(phase := Spawning), 0);
    LeasedWithinPermits(c, Apply(c, s, step).leases);
  }

  lemma LeaseMovesLoad(c: Config, s: State, step: Step)
    requires PermitsOk(c, s) && Enabled(c, s, step) && !Ends(step) && !Global(step) && !step.BeginSpawn?
    ensures LoadMoves(c, s, Apply(c, s, step), step)
  {
    hide PermitsOut, Leased, Spent, Owned, Own, Min;
    SetSums(c, s.leases, step.i, Apply(c, s, step).leases[step.i], 0);
  }

  lemma StepMovesLoad(c: Config, s: State, step: Step)
    requires ValidConfig(c) && PermitsOk(c, s) && Enabled(c, s, step)
    ensures LoadMoves(c, s, Apply(c, s, step), step)
  {
    hide PermitsOut, Leased, Select, Spent;
    match step {
      case Acquire => AddSums(c, s.leases, Lease(Granted, false), 0);
      case AcquireExclusive =>
        AddSums(c, s.leases, Lease(Granted, true), 0);
        LeasedWithinPermits(c, s.leases);
      case ReapIdle(clock) => SelectPartitions(c, clock, s.available, 0);
      case ReapKill =>
      case BeginSpawn(_) => SpawnMovesLoad(c, s, step);
      case _ => if Ends(step) { EndMovesLoad(c, s, step); } else { LeaseMovesLoad(c, s, step); }
    }
  }

  lemma StepKeepsCounts(c: Config, s: State, step: Step)
    requires ValidConfig(c) && Counts(c, s) && Enabled(c, s, step)
    ensures Counts(c, Apply(c, s, step))
  {
    StepMovesLoad(c, s, step);
    hide PermitsOut, Leased, Select, Spent;
  }

  /** The one step that takes the load from within the concurrency to beyond it. */
  predicate Overloads(c: Config, s: State, step: Step) { step.AcquireExclusive? && |s.available| == c.concurrency }

  lemma StepStaysWithinIff(c: Config, s: State, step: Step)
    requires ValidConfig(c) && PermitsOk(c, s) && Enabled(c, s, step) && Load(s) <= c.concurrency
    ensures Load(Apply(c, s, step)) <= c.concurrency <==> !Overloads(c, s, step)
  {
    StepMovesLoad(c, s, step);
    hide Leased, PermitsOut, Apply;
  }

  lemma StepKeepsFit(c: Config, s: State, step: Step)
    requires Fit(c, s) && Enabled(c, s, step)
    ensures Fit(c, Apply(c, s, step))
  {
    if step.ReapIdle? {
      hide Rested;
      forall w | w in Select(c, step.clock, s.available, false) ensures Rested(c, w) {
        SelectIff(c, step.clock, s.available, false, w);
      }
    }
  }

  lemma MoveKeepsConserved(c: Config, s: State, step: Step, id: nat)
    requires Conserved(s, id) && Enabled(c, s, step) && !Global(step)
    ensures Conserved(Apply(c, s, step), id)
  {
    hide Times, Owned, Spent, Permits, PermitsOut, Leased, Min, Active;
    var t := Apply(c, s, step);
    var phase := s.leases[step.i].phase;
    SetSums(c, s.leases, step.i, t.leases[step.i], id);
    match step {
      case PopIdle(_) =>
        var n := |s.available| - 1;
        assert s.available == t.available + [s.available[n]];
        TimesSnoc(t.available, s.available[n], id);
      case PushIdle(_, now) => TimesSnoc(s.available, phase.w.(idleSince := Some(now)), id);
      case KillDone(_) => TimesSnoc(s.killed, phase.w, id);
      case DropLease(_) =>
        if HasWorker(phase) { TimesSnoc(s.dropped, phase.w, id); } else { assert t.dropped == s.dropped; }
      case _ =>
    }
  }

  lemma StepKeepsConserved(c: Config, s: State, step: Step, id: nat)
    requires Conserved(s, id) && Enabled(c, s, step)
    ensures Conserved(Apply(c, s, step), id)
  {
    hide Times, Owned, Select;
    match step {
      case Acquire => AddSums(c, s.leases, Lease(Granted, false), id);
      case AcquireExclusive => AddSums(c, s.leases, Lease(Granted, true), id);
      case ReapIdle(clock) =>
        SelectPartitions(c, clock, s.available, id);
        TimesAppend(s.reaping, Select(c, clock, s.available, true), id);
      case ReapKill =>
        assert s.reaping == [s.reaping[0]] + s.reaping[1..];
        TimesAppend([s.reaping[0]], s.reaping[1..], id);
        TimesAppend(s.killed, [s.reaping[0]], id);
      case _ => MoveKeepsConserved(c, s, step, id);
    }
  }

  ghost predicate Inv(c: Config, s: State, id: nat) { Counts(c, s) && Fit(c, s) && Conserved(s, id) }

  lemma {:induction false} RunKeepsInv(c: Config, trace: seq<State>, steps: seq<Step>, n: nat, id: nat)
    requires IsRun(c, trace, steps) && n <= |steps|
    ensures Inv(c, trace[n], id)
  {
    if n > 0 {
      hide Counts, Fit, Conserved;
      RunKeepsInv(c, trace, steps, n - 1, id);
      StepKeepsCounts(c, trace[n - 1], steps[n - 1]);
      StepKeepsFit(c, trace[n - 1], steps[n - 1]);
      StepKeepsConserved(c, trace[n - 1], steps[n - 1], id);
    }
  }

  // ---------------------------------------------------------------- theorems

  /**
   In every run: idle and leased workers are at most the concurrency plus the
   exclusive acquisitions; every idle worker knows since when and has calls
   left; permits are never created or lost.
   */
  lemma PoolStaysBounded(c: Config, trace: seq<State>, steps: seq<Step>)
    requires IsRun(c, trace, steps)
    ensures var s := trace[|steps|];
            && Load(s) <= c.concurrency + s.exclusiveCalls
            && (forall i :: 0 <= i < |s.available| ==>
                 s.available[i].idleSince.Some? && (c.maxCalls > 0 ==> s.available[i].completedCalls < c.maxCalls))
            && s.free + PermitsOut(c, s.leases) == c.concurrency
  {
    RunKeepsInv(c, trace, steps, |steps|, 0);
  }

  lemma {:induction false} PermitsAt(c: Config, ls: seq<Lease>, i: nat)
    requires i < |ls|
    ensures PermitsOut(c, ls) >= Permits(c, ls[i])
  {
    if i > 0 { PermitsAt(c, ls[1..], i - 1); }
  }

  lemma {:induction false} PermitsTwice(c: Config, ls: seq<Lease>, i: nat, j: nat)
    requires i < j < |ls|
    ensures PermitsOut(c, ls) >= Permits(c, ls[i]) + Permits(c, ls[j])
  {
    if i == 0 { PermitsAt(c, ls[1..], j - 1); } else { PermitsTwice(c, ls[1..], i - 1, j - 1); }
  }

  /** Exclusive means alone: while such a lease lives no other does. */
  lemma ExclusiveIsAlone(c: Config, trace: seq<State>, steps: seq<Step>, i: nat, j: nat)
    requires IsRun(c, trace, steps) && i < |trace[|steps|].leases| && j < |trace[|steps|].leases| && i != j
    requires trace[|steps|].leases[i].exclusive && trace[|steps|].leases[i].phase != Gone
    ensures trace[|steps|].leases[j].phase == Gone
  {
    RunKeepsInv(c, trace, steps, |steps|, 0);
    var ls := trace[|steps|].leases;
    if i < j { PermitsTwice(c, ls, i, j); } else { PermitsTwice(c, ls, j, i); }
  }

  /** Every worker ever spawned is idle, leased, being killed, killed or dropped: exactly one of these, exactly once. */
  lemma EveryWorkerIsAccountedFor(c: Config, trace: seq<State>, steps: seq<Step>, id: nat)
    requires IsRun(c, trace, steps)
    ensures var s := trace[|steps|];
            Times(s.available, id) + Owned(s.leases, id) + Times(s.reaping, id) + Times(s.killed, id) + Times(s.dropped, id)
            == if 1 <= id <= s.spawned then 1 else 0
  {
    RunKeepsInv(c, trace, steps, |steps|, id);
  }

  // ---------------------------------------------------------------- counting calls

  predicate CallsWorker(s: State, step: Step, id: nat) {
    step.CallOk? && step.i < |s.leases| && HasWorker(s.leases[step.i].phase) && s.leases[step.i].phase.w.id == id
  }

  /** The calls a worker completed in the first `n` steps of a run. */
  function CallsMade(trace: seq<State>, steps: seq<Step>, n: nat, id: nat): nat
    requires n <= |steps| <= |trace|
  {
    if n == 0 then 0 else CallsMade(trace, steps, n - 1, id) + if CallsWorker(trace[n - 1], steps[n - 1], id) then 1 else 0
  }

  predicate CountIs(w: Worker, id: nat, calls: nat) { w.id == id ==> w.completedCalls == Min(calls, TWO64 - 1) }

  /** Wherever the worker is, it shows this number of calls. */
  ghost predicate Counted(s: State, id: nat, calls: nat) {
    && (forall i :: 0 <= i < |s.available| ==> CountIs(s.available[i], id, calls))
    && (forall i :: 0 <= i < |s.reaping| ==> CountIs(s.reaping[i], id, calls))
    && (forall i :: 0 <= i < |s.leases| && HasWorker(s.leases[i].phase) ==> CountIs(s.leases[i].phase.w, id, calls))
    && (id > s.spawned ==> calls == 0)
  }

  lemma {:induction false} NotListed(ws: seq<Worker>, id: nat, i: nat)
    requires Times(ws, id) == 0 && i < |ws|
    ensures ws[i].id != id
  {
    if i > 0 { NotListed(ws[1..], id, i - 1); }
  }

  lemma {:induction false} OwnedAt(ls: seq<Lease>, id: nat, i: nat)
    requires i < |ls|
    ensures Owned(ls, id) >= Own(ls[i].phase, id)
  {
    if i > 0 { OwnedAt(ls[1..], id, i - 1); }
  }

  lemma {:induction false} OwnedTwice(ls: seq<Lease>, id: nat, i: nat, j: nat)
    requires i < j < |ls|
    ensures Owned(ls, id) >= Own(ls[i].phase, id) + Own(ls[j].phase, id)
  {
    if i == 0 { OwnedAt(ls[1..], id, j - 1); } else { OwnedTwice(ls[1..], id, i - 1, j - 1); }
  }

  /** A leased worker is nowhere else. */
  lemma LeasedIsAlone(s: State, id: nat, i: nat)
    requires Conserved(s, id) && i < |s.leases| && Own(s.leases[i].phase, id) == 1
    ensures forall j :: 0 <= j < |s.available| ==> s.available[j].id != id
    ensures forall j :: 0 <= j < |s.reaping| ==> s.reaping[j].id != id
    ensures forall j :: 0 <= j < |s.leases| && j != i ==> Own(s.leases[j].phase, id) == 0
    ensures 1 <= id <= s.spawned
  {
    hide Times, Owned;
    OwnedAt(s.leases, id, i);
    forall j | 0 <= j < |s.available| ensures s.available[j].id != id { NotListed(s.available, id, j); }
    forall j | 0 <= j < |s.reaping| ensures s.reaping[j].id != id { NotListed(s.reaping, id, j); }
    forall j | 0 <= j < |s.leases| && j != i ensures Own(s.leases[j].phase, id) == 0 {
      if i < j { OwnedTwice(s.leases, id, i, j); } else { OwnedTwice(s.leases, id, j, i); }
    }
  }

  lemma CallCounts(c: Config, s: State, i: nat, id: nat, calls: nat)
    requires Counted(s, id, calls) && Conserved(s, id) && Enabled(c, s, CallOk(i)) && s.leases[i].phase.w.id == id
    ensures Counted(Apply(c, s, CallOk(i)), id, calls + 1)
  {
    hide Conserved;
    LeasedIsAlone(s, id, i);
  }

  lemma ReapCounts(c: Config, s: State, clock: Clock, id: nat, calls: nat)
    requires Counted(s, id, calls) && Enabled(c, s, ReapIdle(clock))
    ensures Counted(Apply(c, s, ReapIdle(clock)), id, calls)
  {
    hide CountIs, Select;
    forall b: bool, j | 0 <= j < |Select(c, clock, s.available, b)|
      ensures CountIs(Select(c, clock, s.available, b)[j], id, calls)
    {
      SelectIff(c, clock, s.available, b, Select(c, clock, s.available, b)[j]);
    }
  }

  lemma OtherCounts(c: Config, s: State, step: Step, id: nat, calls: nat)
    requires Counted(s, id, calls) && Enabled(c, s, step) && !step.ReapIdle? && !CallsWorker(s, step, id)
    requires step.SpawnOk? && id == s.spawned + 1 ==> forall i :: 0 <= i < |s.leases| ==> Own(s.leases[i].phase, id) == 0
    ensures Counted(Apply(c, s, step), id, calls)
  {
    hide Spent;
  }

  lemma StepCounts(c: Config, s: State, step: Step, id: nat, calls: nat)
    requires Counted(s, id, calls) && Conserved(s, id) && Enabled(c, s, step)
    ensures Counted(Apply(c, s, step), id, calls + if CallsWorker(s, step, id) then 1 else 0)
  {
    hide Conserved, Apply, Counted;
    if CallsWorker(s, step, id) {
      CallCounts(c, s, step.i, id, calls);
    } else if step.ReapIdle? {
      ReapCounts(c, s, step.clock, id, calls);
    } else {
      forall i | 0 <= i < |s.leases| && id == s.spawned + 1 ensures Own(s.leases[i].phase, id) == 0 { Unborn(s, id, i); }
      OtherCounts(c, s, step, id, calls);
    }
  }

  lemma Unborn(s: State, id: nat, i: nat)
    requires Conserved(s, id) && id == s.spawned + 1 && i < |s.leases|
    ensures Own(s.leases[i].phase, id) == 0
  {
    hide Times, Owned;
    OwnedAt(s.leases, id, i);
  }

  /** A worker's counter is the number of calls completed on it since it was spawned, wherever it has been in between. */
  lemma {:induction false} CountersAreTrue(c: Config, trace: seq<State>, steps: seq<Step>, n: nat, id: nat)
    requires IsRun(c, trace, steps) && n <= |steps|
    ensures Counted(trace[n], id, CallsMade(trace, steps, n, id))
  {
    if n > 0 {
      hide Counted, Counts, Fit, Apply;
      CountersAreTrue(c, trace, steps, n - 1, id);
      RunKeepsInv(c, trace, steps, n - 1, id);
      StepCounts(c, trace[n - 1], steps[n - 1], id, CallsMade(trace, steps, n - 1, id));
    }
  }

  /**
   Idle and leased workers stay within the concurrency throughout a run if and
   only if no exclusive lease is ever acquired while that many workers are idle.
   */
  lemma WithinConcurrencyIff(c: Config, trace: seq<State>, steps: seq<Step>)
    requires IsRun(c, trace, steps)
    ensures (forall n :: 0 <= n <= |steps| ==> Load(trace[n]) <= c.concurrency) <==>
            (forall i :: 0 <= i < |steps| ==> !Overloads(c, trace[i], steps[i]))
  {
    hide Load, Apply;
    if forall i :: 0 <= i < |steps| ==> !Overloads(c, trace[i], steps[i]) {
      forall n | 0 <= n <= |steps| ensures Load(trace[n]) <= c.concurrency { StaysWithin(c, trace, steps, n); }
    } else {
      var i :| 0 <= i < |steps| && Overloads(c, trace[i], steps[i]);
      RunKeepsInv(c, trace, steps, i, 0);
      if Load(trace[i]) <= c.concurrency {
        StepStaysWithinIff(c, trace[i], steps[i]);
        assert Load(trace[i + 1]) > c.concurrency;
      }
    }
  }

  lemma {:induction false} StaysWithin(c: Config, trace: seq<State>, steps: seq<Step>, n: nat)
    requires IsRun(c, trace, steps) && n <= |steps|
    requires forall i :: 0 <= i < |steps| ==> !Overloads(c, trace[i], steps[i])
    ensures Load(trace[n]) <= c.concurrency
  {
    if n > 0 {
      hide Load, Apply;
      StaysWithin(c, trace, steps, n - 1);
      RunKeepsInv(c, trace, steps, n - 1, 0);
      StepStaysWithinIff(c, trace[n - 1], steps[n - 1]);
    }
  }

  /** A finished lease returns its worker for reuse exactly if there is no call limit or the worker is below it. */
  lemma FinishReturnsIff(c: Config, s: State, i: nat)
    requires Enabled(c, s, FinishSuccess(i))
    ensures var (w, phase) := (s.leases[i].phase.w, Apply(c, s, FinishSuccess(i)).leases[i].phase);
            && (phase == Returning(w) <==> c.maxCalls == 0 || w.completedCalls < c.maxCalls)
            && (phase == Killing(w) <==> c.maxCalls > 0 && w.completedCalls >= c.maxCalls)
  {
  }

  lemma Extend(c: Config, trace: seq<State>, steps: seq<Step>, step: Step) returns (trace': seq<State>, steps': seq<Step>)
    requires IsRun(c, trace, steps) && Enabled(c, trace[|steps|], step)
    ensures IsRun(c, trace', steps') && trace'[|steps'|] == Apply(c, trace[|steps|], step)
  {
    trace', steps' := trace + [Apply(c, trace[|steps|], step)], steps + [step];
  }

  /** An exclusive lease spawns beside an idle worker: the concurrency alone is no bound. */
  lemma ExclusiveExceedsConcurrency() returns (c: Config, trace: seq<State>, steps: seq<Step>)
    ensures IsRun(c, trace, steps)
    ensures Load(trace[|steps|]) > c.concurrency
  {
    c := Config(1, 0, 0);
    trace, steps := [Fresh(c)], [];
    trace, steps := OneIdle(c, trace, steps);
    trace, steps := Extend(c, trace, steps, AcquireExclusive);
    trace, steps := Extend(c, trace, steps, BeginSpawn(1));
    trace, steps := Extend(c, trace, steps, SpawnOk(1));
    var leases := trace[|steps|].leases;
    assert leases[1].phase.Held? && Leased(leases[1..]) == 1 + Leased(leases[1..][1..]);
  }

  lemma OneIdle(c: Config, trace: seq<State>, steps: seq<Step>) returns (trace': seq<State>, steps': seq<Step>)
    requires IsRun(c, trace, steps) && c == Config(1, 0, 0) && steps == []
    ensures IsRun(c, trace', steps')
    ensures trace'[|steps'|] == State(1, [Worker(1, 0, Some(0))], [Lease(Gone, false)], [], [], [], 1, 0)
  {
    trace', steps' := Extend(c, trace, steps, Acquire);
    trace', steps' := Extend(c, trace', steps', BeginSpawn(0));
    trace', steps' := Extend(c, trace', steps', SpawnOk(0));
    trace', steps' := Extend(c, trace', steps', FinishSuccess(0));
    trace', steps' := Extend(c, trace', steps', PushIdle(0, 0));
    trace', steps' := Extend(c, trace', steps', Release(0));
  }
}
