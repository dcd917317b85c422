/**
 The condition-variable CPU limiter
 (src/core/export_pipeline/implementation/limits.rs).  Each step is one
 critical section of one thread; a thread re-checks the count after every
 wake-up, takes the lock twice on the way in, and a release wakes one sleeper.
 */
module CpuLimiter {
  import opened Common

  datatype Phase =
    | Start      // not called yet, or has not taken the lock yet
    | Asleep1    // waiting on the condition variable in the first loop
    | Woken1     // notified, will re-check in the first loop
    | Between    // left the first loop, lock dropped for the throttle
    | Asleep2    // waiting in the second loop
    | Woken2
    | Holding    // owns an active permit
    | Soft       // owns an inactive permit: the hard cap is off
    | Gone       // permit dropped, or the call returned an error

  datatype Config = Config(max: nat, hardCap: bool, throttle: bool)

  datatype State = State(threads: seq<Phase>, active: nat)

  datatype Step =
    | TakeSoft(t: nat)
    | FirstCheck(t: nat)
    | SecondCheck(t: nat)
    | Spurious(t: nat)
    | Drop(t: nat, notified: Option<nat>)
    | DropSoft(t: nat)
    | ThrottleFails(t: nat)

  predicate Is(s: State, t: nat, p: Phase) { t < |s.threads| && s.threads[t] == p }

  predicate Sleeps(p: Phase) { p.Asleep1? || p.Asleep2? }

  /** `notify_one` wakes some sleeper if there is one. */
  predicate Notifies(s: State, w: Option<nat>) {
    match w
    case None => forall t :: 0 <= t < |s.threads| ==> !Sleeps(s.threads[t])
    case Some(t) => t < |s.threads| && Sleeps(s.threads[t])
  }

  predicate Enabled(c: Config, s: State, step: Step) {
    match step
    case TakeSoft(t) => !c.hardCap && Is(s, t, Start)
    case FirstCheck(t) => (c.hardCap && Is(s, t, Start)) || Is(s, t, Woken1)
    case SecondCheck(t) => Is(s, t, Between) || Is(s, t, Woken2)
    case Spurious(t) => t < |s.threads| && Sleeps(s.threads[t])
    case Drop(t, w) => Is(s, t, Holding) && Notifies(s, w)
    case DropSoft(t) => Is(s, t, Soft)
    case ThrottleFails(t) => c.throttle && (Is(s, t, Between) || (!c.hardCap && Is(s, t, Start)))
  }

  function Set(s: State, t: nat, p: Phase): State
    requires t < |s.threads|
  {
    s.(threads := s.threads[t := p])
  }

  function Wake(s: State, t: nat): State
    requires t < |s.threads|
  {
    Set(s, t, if s.threads[t].Asleep1? then Woken1 else Woken2)
  }

  function Apply(c: Config, s: State, step: Step): State
    requires Enabled(c, s, step)
  {
    match step
    case TakeSoft(t) => Set(s, t, Soft)
    case FirstCheck(t) => Set(s, t, if s.active >= c.max then Asleep1 else Between)
    case SecondCheck(t) =>
      if s.active >= c.max then Set(s, t, Asleep2)
      else Set(s, t, Holding).(active := s.active + 1)
    case Spurious(t) => Wake(s, t)
    case Drop(t, w) =>
      var u := Set(s, t, Gone).(active := Max(s.active - 1, 0));
      if w.Some? then Wake(u, w.value) else u
    case DropSoft(t) => Set(s, t, Gone)
    case ThrottleFails(t) => Set(s, t, Gone)
  }

  /** Both loops let a thread pass exactly if a slot is free, and only the second takes it. */
  lemma ChecksDecide(c: Config, s: State, t: nat)
    ensures Enabled(c, s, FirstCheck(t)) ==>
              var u := Apply(c, s, FirstCheck(t));
              u.active == s.active && u.threads[t] == if s.active < c.max then Between else Asleep1
    ensures Enabled(c, s, SecondCheck(t)) ==>
              var u := Apply(c, s, SecondCheck(t));
              if s.active < c.max then u.active == s.active + 1 && u.threads[t] == Holding
              else u.active == s.active && u.threads[t] == Asleep2
  {
  }

  ghost predicate IsRun(c: Config, trace: seq<State>, steps: seq<Step>) {
    && |trace| == |steps| + 1
    && trace[0].active == 0 && (forall t :: 0 <= t < |trace[0].threads| ==> trace[0].threads[t] == Start)
    && forall i :: 0 <= i < |steps| ==> Enabled(c, trace[i], steps[i]) && trace[i + 1] == Apply(c, trace[i], steps[i])
  }

  ghost function Count(threads: seq<Phase>, p: Phase): nat { multiset(threads)[p] }

  /** Threads past their first check that will look at the counter again without being notified. */
  ghost function Contenders(s: State): nat {
    Count(s.threads, Woken1) + Count(s.threads, Between) + Count(s.threads, Woken2)
  }

  ghost function Sleepers(s: State): nat { Count(s.threads, Asleep1) + Count(s.threads, Asleep2) }

  /** The counter counts the live active permits and respects the cap. */
  ghost predicate CounterIsTrue(c: Config, s: State) {
    s.active == Count(s.threads, Holding) && s.active <= c.max
  }

  /** Free slots never outnumber the threads awake to take them while somebody sleeps. */
  ghost predicate NoLostWakeup(c: Config, s: State) {
    Sleepers(s) > 0 ==> Contenders(s) >= c.max - s.active
  }

  /** With the hard cap off nobody ever takes the lock. */
  ghost predicate SoftOnly(c: Config, s: State) {
    !c.hardCap ==> forall t :: 0 <= t < |s.threads| ==>
      s.threads[t].Start? || s.threads[t].Soft? || s.threads[t].Gone?
  }

  ghost predicate Inv(c: Config, s: State) {
    CounterIsTrue(c, s) && NoLostWakeup(c, s) && SoftOnly(c, s)
  }

  function Bit(b: bool): nat { if b then 1 else 0 }

  lemma SetCounts(s: State, t: nat, to: Phase)
    requires t < |s.threads|
    ensures forall p :: Count(s.threads[t := to], p) == Count(s.threads, p) - Bit(s.threads[t] == p) + Bit(to == p)
    ensures Count(s.threads, s.threads[t]) >= 1
  {
    assert multiset(s.threads[t := to]) == multiset(s.threads) - multiset{s.threads[t]} + multiset{to};
    assert s.threads[t] in multiset(s.threads);
  }

  lemma CheckKeeps(c: Config, s: State, step: Step)
    requires c.max >= 1 && Enabled(c, s, step) && Inv(c, s)
    requires step.FirstCheck? || step.SecondCheck?
    ensures Inv(c, Apply(c, s, step))
  {
    hide Count;
    var t := Apply(c, s, step);
    SetCounts(s, step.t, t.threads[step.t]);
    assert t.threads == s.threads[step.t := t.threads[step.t]];
  }

  lemma SoftKeeps(c: Config, s: State, step: Step)
    requires c.max >= 1 && Enabled(c, s, step) && Inv(c, s)
    requires step.TakeSoft? || step.Spurious? || step.DropSoft?
    ensures Inv(c, Apply(c, s, step))
  {
    hide Count;
    if !c.hardCap {
      NobodyIs(s, Asleep1);
      NobodyIs(s, Asleep2);
    }
    var t := Apply(c, s, step);
    SetCounts(s, step.t, t.threads[step.t]);
    assert t.threads == s.threads[step.t := t.threads[step.t]];
  }

  lemma StepKeepsInv(c: Config, s: State, step: Step)
    requires c.max >= 1 && Enabled(c, s, step) && !step.ThrottleFails? && Inv(c, s)
    ensures Inv(c, Apply(c, s, step))
  {
    hide Inv, Apply;
    match step {
      case FirstCheck(_) => CheckKeeps(c, s, step);
      case SecondCheck(_) => CheckKeeps(c, s, step);
      case Drop(t, w) => DropKeeps(c, s, t, w);
      case _ => SoftKeeps(c, s, step);
    }
  }

  lemma DropKeeps(c: Config, s: State, t: nat, w: Option<nat>)
    requires c.max >= 1 && Enabled(c, s, Drop(t, w))
    requires Inv(c, s)
    ensures Inv(c, Apply(c, s, Drop(t, w)))
  {
    hide Count;
    var u := Set(s, t, Gone);
    SetCounts(s, t, Gone);
    match w {
      case None =>
        NobodyIs(u, Asleep1);
        NobodyIs(u, Asleep2);
      case Some(x) =>
        SetCounts(u, x, if s.threads[x].Asleep1? then Woken1 else Woken2);
    }
  }

  lemma NobodyIs(s: State, p: Phase)
    requires forall t :: 0 <= t < |s.threads| ==> s.threads[t] != p
    ensures Count(s.threads, p) == 0
  {
    assert p !in s.threads;
  }

  lemma SomebodyIs(s: State, p: Phase) returns (t: nat)
    requires Count(s.threads, p) > 0
    ensures Is(s, t, p)
  {
    assert p in s.threads;
    t :| 0 <= t < |s.threads| && s.threads[t] == p;
  }

  /** A throttle call may fail here without harm: nobody sleeps, or a contender is to spare. */
  ghost predicate Harmless(c: Config, s: State) { Sleepers(s) == 0 || Contenders(s) > c.max - s.active }

  /** Every throttle failure came at a harmless moment; vacuous while the throttle is disabled. */
  ghost predicate FailuresHarmless(c: Config, trace: seq<State>, steps: seq<Step>)
    requires |trace| == |steps| + 1
  {
    forall i :: 0 <= i < |steps| && steps[i].ThrottleFails? ==> Harmless(c, trace[i])
  }

  lemma ThrottleFailureKeepsInvIff(c: Config, s: State, t: nat)
    requires Inv(c, s) && Enabled(c, s, ThrottleFails(t))
    ensures Inv(c, Apply(c, s, ThrottleFails(t))) <==> Harmless(c, s)
  {
    hide Count;
    SetCounts(s, t, Gone);
    if !c.hardCap {
      NobodyIs(s, Asleep1);
      NobodyIs(s, Asleep2);
    }
  }

  lemma {:induction false} EveryRunIsSafe(c: Config, trace: seq<State>, steps: seq<Step>, n: nat)
    requires c.max >= 1 && IsRun(c, trace, steps) && n <= |steps| && FailuresHarmless(c, trace, steps)
    ensures Inv(c, trace[n])
  {
    if n == 0 {
      hide Count;
      NobodyIs(trace[0], Holding);
      NobodyIs(trace[0], Asleep1);
      NobodyIs(trace[0], Asleep2);
    } else {
      hide Inv, Harmless;
      EveryRunIsSafe(c, trace, steps, n - 1);
      var step := steps[n - 1];
      if step.ThrottleFails? {
        ThrottleFailureKeepsInvIff(c, trace[n - 1], step.t);
      } else {
        StepKeepsInv(c, trace[n - 1], step);
      }
    }
  }

  /**
   In every state of a run of any number of threads the counter equals the live
   active permits, stays within the cap, and no wake-up is lost, if and only if
   every throttle failure came when nobody slept or a contender was to spare.
   */
  lemma EveryRunIsSafeIff(c: Config, trace: seq<State>, steps: seq<Step>)
    requires c.max >= 1 && IsRun(c, trace, steps)
    ensures (forall n :: 0 <= n <= |steps| ==> Inv(c, trace[n])) <==> FailuresHarmless(c, trace, steps)
  {
    hide Inv, Harmless, Apply;
    if FailuresHarmless(c, trace, steps) {
      forall n | 0 <= n <= |steps| ensures Inv(c, trace[n]) { EveryRunIsSafe(c, trace, steps, n); }
    } else {
      var i :| 0 <= i < |steps| && steps[i].ThrottleFails? && !Harmless(c, trace[i]);
      if Inv(c, trace[i]) {
        ThrottleFailureKeepsInvIff(c, trace[i], steps[i].t);
        assert !Inv(c, trace[i + 1]);
      }
    }
  }

  /** Without a spurious wake-up or a newcomer, somebody can still move things on. */
  ghost predicate CanAct(c: Config, s: State) {
    exists step: Step :: Enabled(c, s, step) && (step.Drop? || step.FirstCheck? || step.SecondCheck?) && !Is(s, step.t, Start)
  }

  lemma ActsIff(c: Config, s: State)
    requires CounterIsTrue(c, s) && Sleepers(s) > 0
    ensures CanAct(c, s) <==> s.active > 0 || Contenders(s) > 0
  {
    hide Count;
    if s.active > 0 || Contenders(s) > 0 {
      var step := FindActor(c, s);
    } else if CanAct(c, s) {
      var step: Step :| Enabled(c, s, step) && (step.Drop? || step.FirstCheck? || step.SecondCheck?) && !Is(s, step.t, Start);
      SetCounts(s, step.t, Gone);
    }
  }

  lemma SomebodySleeps(s: State) returns (z: nat)
    requires Sleepers(s) > 0
    ensures z < |s.threads| && Sleeps(s.threads[z])
  {
    hide Count;
    if Count(s.threads, Asleep1) > 0 { z := SomebodyIs(s, Asleep1); } else { z := SomebodyIs(s, Asleep2); }
  }

  lemma FindActor(c: Config, s: State) returns (step: Step)
    requires CounterIsTrue(c, s) && Sleepers(s) > 0 && (s.active > 0 || Contenders(s) > 0)
    ensures Enabled(c, s, step) && (step.Drop? || step.FirstCheck? || step.SecondCheck?) && !Is(s, step.t, Start)
  {
    hide Count;
    var t;
    if s.active > 0 {
      t := SomebodyIs(s, Holding);
      var z := SomebodySleeps(s);
      step := Drop(t, Some(z));
    } else if Count(s.threads, Woken1) > 0 {
      t := SomebodyIs(s, Woken1);
      step := FirstCheck(t);
    } else if Count(s.threads, Between) > 0 {
      t := SomebodyIs(s, Between);
      step := SecondCheck(t);
    } else {
      t := SomebodyIs(s, Woken2);
      step := SecondCheck(t);
    }
  }

  /** Without lost wake-ups a sleeping thread is never the last one standing. */
  lemma SleepersAreNeverStranded(c: Config, trace: seq<State>, steps: seq<Step>)
    requires c.max >= 1 && IsRun(c, trace, steps) && FailuresHarmless(c, trace, steps) && Sleepers(trace[|steps|]) > 0
    ensures CanAct(c, trace[|steps|])
  {
    EveryRunIsSafe(c, trace, steps, |steps|);
    ActsIff(c, trace[|steps|]);
  }

  /** A throttle failure leaves the sleepers to themselves exactly if its thread was the last contender and no permit is held. */
  lemma ThrottleFailureStrandsIff(c: Config, trace: seq<State>, steps: seq<Step>, t: nat)
    requires c.max >= 1 && IsRun(c, trace, steps) && c.throttle && Is(trace[|steps|], t, Between) && Sleepers(trace[|steps|]) > 0
    ensures var s := trace[|steps|];
            CanAct(c, Apply(c, s, ThrottleFails(t))) <==> s.active > 0 || Contenders(s) > 1
  {
    hide Count, CanAct;
    var s := trace[|steps|];
    CounterIsAlwaysTrue(c, trace, steps, |steps|);
    SetCounts(s, t, Gone);
    ActsIff(c, Apply(c, s, ThrottleFails(t)));
  }

  /** Whatever the throttle does, the counter is true. */
  lemma {:induction false} CounterIsAlwaysTrue(c: Config, trace: seq<State>, steps: seq<Step>, n: nat)
    requires c.max >= 1 && IsRun(c, trace, steps) && n <= |steps|
    ensures CounterIsTrue(c, trace[n])
  {
    if n == 0 {
      hide Count;
      NobodyIs(trace[0], Holding);
    } else {
      CounterIsAlwaysTrue(c, trace, steps, n - 1);
      StepKeepsCounter(c, trace[n - 1], steps[n - 1]);
    }
  }

  lemma StepKeepsCounter(c: Config, s: State, step: Step)
    requires Enabled(c, s, step) && CounterIsTrue(c, s)
    ensures CounterIsTrue(c, Apply(c, s, step))
  {
    hide Count;
    if step.Drop? {
      var u := Set(s, step.t, Gone);
      SetCounts(s, step.t, Gone);
      if step.notified.Some? {
        var x := step.notified.value;
        SetCounts(u, x, if u.threads[x].Asleep1? then Woken1 else Woken2);
      }
    } else {
      var t := Apply(c, s, step);
      SetCounts(s, step.t, t.threads[step.t]);
      assert t.threads == s.threads[step.t := t.threads[step.t]];
    }
  }

  /**
   With the throttle enabled the guarantee fails.  One slot, three threads:
   the notified thread passes the first loop, its throttle call returns an
   error, and the third thread sleeps although the slot is free and nobody is
   left to wake it.
   */
  lemma ThrottleErrorLosesWakeup() returns (trace: seq<State>, steps: seq<Step>)
    ensures var c := Config(1, true, true);
            && IsRun(c, trace, steps)
            && var s := trace[|steps|];
            && s.active < c.max && Sleepers(s) > 0 && Contenders(s) == 0 && !NoLostWakeup(c, s)
            && (forall step :: Enabled(c, s, step) ==> step.Spurious?)
  {
    hide Count;
    var c := Config(1, true, true);
    trace, steps := TwoSleepers(c);
    trace, steps := Extend(c, trace, steps, Drop(0, Some(1)), State([Gone, Woken1, Asleep1], 0));
    trace, steps := Extend(c, trace, steps, FirstCheck(1), State([Gone, Between, Asleep1], 0));
    trace, steps := Extend(c, trace, steps, ThrottleFails(1), State([Gone, Gone, Asleep1], 0));
    StrandedAtTheEnd(c, trace[|steps|]);
  }

  lemma TwoSleepers(c: Config) returns (trace: seq<State>, steps: seq<Step>)
    requires c == Config(1, true, true)
    ensures IsRun(c, trace, steps) && trace[|steps|] == State([Holding, Asleep1, Asleep1], 1)
  {
    hide Count;
    trace, steps := [State([Start, Start, Start], 0)], [];
    trace, steps := Extend(c, trace, steps, FirstCheck(0), State([Between, Start, Start], 0));
    trace, steps := Extend(c, trace, steps, SecondCheck(0), State([Holding, Start, Start], 1));
    trace, steps := Extend(c, trace, steps, FirstCheck(1), State([Holding, Asleep1, Start], 1));
    trace, steps := Extend(c, trace, steps, FirstCheck(2), State([Holding, Asleep1, Asleep1], 1));
  }

  lemma Extend(c: Config, trace: seq<State>, steps: seq<Step>, step: Step, s: State)
    returns (trace': seq<State>, steps': seq<Step>)
    requires IsRun(c, trace, steps)
    requires Enabled(c, trace[|steps|], step) && Apply(c, trace[|steps|], step) == s
    ensures IsRun(c, trace', steps') && trace'[|steps'|] == s
  {
    trace', steps' := trace + [s], steps + [step];
  }

  lemma StrandedAtTheEnd(c: Config, s: State)
    requires c == Config(1, true, true) && s == State([Gone, Gone, Asleep1], 0)
    ensures Sleepers(s) > 0 && Contenders(s) == 0
    ensures forall step :: Enabled(c, s, step) ==> step.Spurious?
  {
    hide Count;
    NobodyIs(s, Woken1);
    NobodyIs(s, Between);
    NobodyIs(s, Woken2);
    SetCounts(s, 2, Gone);
  }
}
