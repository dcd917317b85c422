/**
 What the scheduling loop guarantees: no deadlock, finite runs, bounded
 concurrency and memory, and an account of every task.
 */
module Scheduling {
  import opened Common
  import opened MemoryLimiter
  import opened Tasks
  import opened Executor
  import opened ExecutorSteps

  /** The loop ends when both join sets are empty, or by returning `Cancelled`. */
  ghost predicate Final(s: State) {
    s.aborted || forall i :: 0 <= i < |s.stages| ==> !InDownloadJoins(s.stages[i]) && !InPostJoins(s.stages[i])
  }

  /** Some task can move without waiting, or every task is waiting for a semaphore. */
  lemma FindMovable(c: Config, s: State) returns (step: Step, found: bool)
    requires ValidConfig(c) && Inv(c, s) && !s.aborted
    ensures found ==> Enabled(c, s, step) && !step.RaiseCancel?
    ensures !found ==> forall i :: 0 <= i < |s.stages| ==>
              !s.stages[i].Working? && !s.stages[i].DownloadDone? && !s.stages[i].Posting?
              && !s.stages[i].PostTail? && !s.stages[i].PostDone?
  {
    step, found := RaiseCancel, true;
    if i :| At(s, i, Working) { step := FinishDownload(i, Success); }
    else if i :| 0 <= i < |s.stages| && s.stages[i].DownloadDone? { step := JoinDownload(i, 0, 0); }
    else if i :| At(s, i, Posting) { step := FinishPost(i, Success); }
    else if i :| 0 <= i < |s.stages| && s.stages[i].PostTail? { step := LeavePost(i); }
    else if i :| 0 <= i < |s.stages| && s.stages[i].PostDone? { step := JoinPost(i); }
    else {
      forall i | 0 <= i < |s.stages| ensures !s.stages[i].Working? && !s.stages[i].Posting? {
        assert !At(s, i, Working) && !At(s, i, Posting);
      }
      found := false;
    }
  }

  /** Deadlock freedom: in every reachable state that is not final some task can move. */
  lemma NeverStuck(c: Config, s: State) returns (step: Step)
    requires ValidConfig(c) && Inv(c, s) && !Final(s)
    ensures Enabled(c, s, step) && !step.RaiseCancel?
  {
    var found;
    step, found := FindMovable(c, s);
    if !found {
      // The chain of waits is post-process, memory, backlog, download: the
      // last one in use has nobody further along holding its permits.
      if s.postQueue != [] {
        NobodyHolds(c, PostPermits, s.stages);
        step := AcquirePost;
      } else {
        forall i | 0 <= i < |s.stages| ensures !s.stages[i].WaitPost? {
          assert At(s, i, WaitPost) ==> i in s.postQueue;
        }
        NobodyHolds(c, MemoryUnits, s.stages);
        if s.memoryQueue != [] {
          step := AcquireMemory;
        } else {
          forall i | 0 <= i < |s.stages| ensures !s.stages[i].WaitMemory? {
            assert At(s, i, WaitMemory) ==> i in s.memoryQueue;
          }
          NobodyHolds(c, BacklogPermits, s.stages);
          if s.backlogQueue != [] {
            step := AcquireBacklog(0);
          } else {
            forall i | 0 <= i < |s.stages| ensures !s.stages[i].WaitBacklog? {
              assert At(s, i, WaitBacklog) ==> i in s.backlogQueue;
            }
            NobodyHolds(c, DownloadPermits, s.stages);
            var i :| 0 <= i < |s.stages| && (InDownloadJoins(s.stages[i]) || InPostJoins(s.stages[i]));
            assert At(s, i, WaitDownload);
            assert i in s.downloadQueue;
            step := AcquireDownload(0);
          }
        }
      }
    }
  }

  /**
   Every run is finite, no run gets stuck before the loop's exit, and permits
   are conserved with at most `downloads` jobs in flight throughout.
   */
  lemma ExecutorAlwaysProgresses(c: Config, trace: seq<State>, steps: seq<Step>)
    requires ValidConfig(c) && IsRun(c, trace, steps)
    ensures |steps| <= 10 * |c.tasks| + 1
    ensures var s := trace[|steps|];
            && |s.stages| == |c.tasks|
            && PermitsConserved(c, s)
            && (!s.aborted ==> Total(c, InJoins, s.stages) <= c.downloads)
            && (!Final(s) ==> exists step: Step :: !step.RaiseCancel? && Enabled(c, s, step))
  {
    RunKeepsInv(c, trace, steps, |steps|);
    var s := trace[|steps|];
    if !Final(s) {
      var step := NeverStuck(c, s);
    }
  }

  /** While tasks remain in the iterator the download join set is full, hence never empty. */
  lemma EmptyJoinSetMeansNothingPending(c: Config, s: State)
    requires ValidConfig(c) && Inv(c, s) && !s.aborted
    requires forall i :: 0 <= i < |s.stages| ==> !InDownloadJoins(s.stages[i])
    ensures s.next == |c.tasks| && forall i :: 0 <= i < |s.stages| ==> !s.stages[i].Pending?
  {
    NobodyHolds(c, InJoins, s.stages);
  }

  /**
   At an uncancelled exit every queued task was counted exactly once, as
   completed or as failed, and the download record is the initial one
   overwritten by exactly the completed bundles.
   */
  lemma ExitAccountsForEveryTask(c: Config, trace: seq<State>, steps: seq<Step>)
    requires ValidConfig(c) && IsRun(c, trace, steps)
    requires Final(trace[|steps|]) && !trace[|steps|].aborted
    ensures var s := trace[|steps|];
            && |s.stages| == |c.tasks|
            && s.completed + s.failed == |c.tasks|
            && s.completed == Total(c, IsCompleted, s.stages)
            && (forall i :: 0 <= i < |s.stages| ==> s.stages[i].Completed? || s.stages[i].Failed?)
            && RecordIs(c, s.stages, s.record)
  {
    var s := trace[|steps|];
    RunKeepsInv(c, trace, steps, |steps|);
    EmptyJoinSetMeansNothingPending(c, s);
    forall i | 0 <= i < |s.stages| ensures s.stages[i].Completed? || s.stages[i].Failed? {
      assert !InDownloadJoins(s.stages[i]) && !InPostJoins(s.stages[i]);
    }
    NobodyHolds(c, Live, s.stages);
  }

  lemma {:induction false} SumScaled(xs: seq<nat>, ys: seq<nat>, m: nat)
    requires |xs| == |ys| && forall i :: 0 <= i < |xs| ==> xs[i] <= ys[i] * m
    ensures Sum(xs) <= Sum(ys) * m
  {
    if xs != [] {
      SumScaled(xs[1..], ys[1..], m);
      assert Sum(ys) * m == ys[0] * m + Sum(ys[1..]) * m;
    }
  }

  /** From the start of a download until post-processing has consumed it, a bundle is in memory. */
  predicate InMemory(st: Stage) {
    match st
    case Working => true
    case DownloadDone(o) => o == Success
    case WaitPost => true
    case Posting => true
    case _ => false
  }

  /** A memory request covers the bundle's file size with as few units as possible, or takes all there are. */
  lemma AsksForItsSize(c: Config, i: nat)
    requires ValidConfig(c) && c.limiter.On? && i < |c.tasks|
    ensures var (units, limit, size) := (TaskNeed(c, i), c.limiter.limitUnits, c.tasks[i].fileSize);
            && 1 <= units <= limit
            && (size <= limit * UNIT_BYTES ==> size <= units * UNIT_BYTES)
            && (size > limit * UNIT_BYTES ==> units == limit)
            && (units > 1 ==> (units - 1) * UNIT_BYTES < size)
  {
  }

  /** The file sizes, negative ones counted as zero, of all tasks that hold memory. */
  function HeldBytes(tasks: seq<Task>, stages: seq<Stage>): nat
    requires |tasks| == |stages|
  {
    if tasks == [] then 0 else
    (if InMemory(stages[0]) && tasks[0].fileSize > 0 then tasks[0].fileSize else 0) + HeldBytes(tasks[1..], stages[1..])
  }

  /** The model's estimate is exactly the file size. */
  lemma {:induction false} HeldIsTotal(c: Config, tasks: seq<Task>, stages: seq<Stage>, ws: seq<nat>)
    requires |tasks| == |stages| == |ws|
    requires forall i :: 0 <= i < |ws| ==> ws[i] == if HoldsMemory(stages[i]) then Max(tasks[i].fileSize, 0) else 0
    ensures HeldBytes(tasks, stages) == Sum(ws)
  {
    if tasks != [] { HeldIsTotal(c, tasks[1..], stages[1..], ws[1..]); }
  }

  ghost predicate AloneAndOversized(c: Config, s: State, i: nat)
    requires |s.stages| == |c.tasks| && c.limiter.On?
  {
    && i < |s.stages| && InMemory(s.stages[i])
    && c.tasks[i].fileSize > c.limiter.limitUnits * UNIT_BYTES
    && forall j :: 0 <= j < |s.stages| && j != i ==> !InMemory(s.stages[j])
  }

  lemma OversizedIsAlone(c: Config, s: State, i: nat)
    requires ValidConfig(c) && |s.stages| == |c.tasks| && c.limiter.On?
    requires Total(c, MemoryUnits, s.stages) <= c.limiter.limitUnits
    requires i < |s.stages| && HoldsMemory(s.stages[i]) && TaskBytes(c, i) > c.limiter.limitUnits * UNIT_BYTES
    ensures AloneAndOversized(c, s, i)
  {
    var units := Weights(c, MemoryUnits, s.stages);
    forall j | 0 <= j < |s.stages| && j != i ensures !HoldsMemory(s.stages[j]) {
      if HoldsMemory(s.stages[j]) {
        SumPair(units, Min(i, j), Max(i, j));
      }
    }
  }

  lemma FittingHoldersFit(c: Config, s: State)
    requires ValidConfig(c) && |s.stages| == |c.tasks| && c.limiter.On?
    requires Total(c, MemoryUnits, s.stages) <= c.limiter.limitUnits
    requires forall i :: 0 <= i < |s.stages| && HoldsMemory(s.stages[i]) ==>
               TaskBytes(c, i) <= c.limiter.limitUnits * UNIT_BYTES
    ensures Total(c, MemoryBytes, s.stages) <= c.limiter.limitUnits * UNIT_BYTES
  {
    SumScaled(Weights(c, MemoryBytes, s.stages), Weights(c, MemoryUnits, s.stages), UNIT_BYTES);
  }

  /**
   The memory bound the limiter really gives: the bytes of all permit holders
   together stay within the limit, or one oversized bundle holds every unit
   and is alone.
   */
  lemma MemoryIsBounded(c: Config, trace: seq<State>, steps: seq<Step>)
    requires ValidConfig(c) && IsRun(c, trace, steps) && c.limiter.On?
    ensures var s := trace[|steps|];
            && |s.stages| == |c.tasks|
            && (|| HeldBytes(c.tasks, s.stages) <= c.limiter.limitUnits * UNIT_BYTES
                || exists i: nat :: AloneAndOversized(c, s, i))
  {
    var s := trace[|steps|];
    RunKeepsInv(c, trace, steps, |steps|);
    assert s.memoryFree + Total(c, MemoryUnits, s.stages) == Capacity(c);
    if i: nat :| i < |s.stages| && HoldsMemory(s.stages[i]) && TaskBytes(c, i) > c.limiter.limitUnits * UNIT_BYTES {
      OversizedIsAlone(c, s, i);
    } else {
      FittingHoldersFit(c, s);
      HeldIsTotal(c, c.tasks, s.stages, Weights(c, MemoryBytes, s.stages));
    }
  }

  lemma {:induction false} CardWithinSum(ws: seq<nat>, members: set<nat>)
    requires forall i :: i in members ==> i < |ws| && ws[i] >= 1
    ensures |members| <= Sum(ws)
    decreases members
  {
    if members != {} {
      var i :| i in members;
      SumUpdate(ws, i, 0);
      CardWithinSum(ws[i := 0], members - {i});
    }
  }

  /**
   In every reachable state at most `downloads` tasks are past the download
   semaphore and not yet downloaded, at most `posts` are being post-processed,
   and at most as many as post-processing may take sit between the two.
   */
  lemma ConcurrencyIsBounded(c: Config, trace: seq<State>, steps: seq<Step>)
    requires ValidConfig(c) && IsRun(c, trace, steps)
    ensures var st := trace[|steps|].stages;
            && |set i: nat | i < |st| && (st[i].WaitBacklog? || st[i].WaitMemory? || st[i].Working?)| <= c.downloads
            && |set i: nat | i < |st| && (st[i].Posting? || st[i].PostTail?)| <= c.posts
            && |set i: nat | i < |st| && (st[i].WaitMemory? || InMemory(st[i]))| <= c.posts
  {
    var s := trace[|steps|];
    RunKeepsInv(c, trace, steps, |steps|);
    hide Inv, IsRun;
    CardWithinSum(Weights(c, DownloadPermits, s.stages),
                  set i: nat | i < |s.stages| && (s.stages[i].WaitBacklog? || s.stages[i].WaitMemory? || s.stages[i].Working?));
    CardWithinSum(Weights(c, PostPermits, s.stages),
                  set i: nat | i < |s.stages| && (s.stages[i].Posting? || s.stages[i].PostTail?));
    CardWithinSum(Weights(c, BacklogPermits, s.stages),
                  set i: nat | i < |s.stages| && (s.stages[i].WaitMemory? || InMemory(s.stages[i])));
    assert PermitsConserved(c, s) by { InvPermits(c, s); }
  }

  lemma InvPermits(c: Config, s: State)
    requires ValidConfig(c) && Inv(c, s)
    ensures PermitsConserved(c, s)
  {
  }

  /** Not started, or turned away. */
  predicate NotStarted(st: Stage) { st.Pending? || st.WaitDownload? || st == DownloadDone(Cancel) || st.Dropped? }

  lemma AcquireKeepsOut(c: Config, s: State, step: Step, i: nat)
    requires ValidConfig(c) && |s.stages| == |c.tasks| && Enabled(c, s, step) && s.cancelled && IsAcquire(step)
    requires i < |s.stages| && NotStarted(s.stages[i])
    ensures var t := Apply(c, s, step); |t.stages| == |c.tasks| && t.cancelled && NotStarted(t.stages[i])
  {
    hide Need, Join, Max;
  }

  lemma OtherKeepsOut(c: Config, s: State, step: Step, i: nat)
    requires ValidConfig(c) && |s.stages| == |c.tasks| && Enabled(c, s, step) && s.cancelled && !IsAcquire(step)
    requires i < |s.stages| && NotStarted(s.stages[i]) && !step.JoinDownload?
    ensures var t := Apply(c, s, step); |t.stages| == |c.tasks| && t.cancelled && NotStarted(t.stages[i])
  {
    hide Need, Join, Max;
  }

  lemma JoinKeepsOut(c: Config, s: State, step: Step, i: nat)
    requires ValidConfig(c) && |s.stages| == |c.tasks| && Enabled(c, s, step) && s.cancelled && step.JoinDownload?
    requires i < |s.stages| && NotStarted(s.stages[i])
    ensures var t := Apply(c, s, step); |t.stages| == |c.tasks| && t.cancelled && NotStarted(t.stages[i])
  {
    hide Need, Join, Max;
  }

  /** Once the cancel flag is up no task gets past the download semaphore any more. */
  lemma {:induction false} NothingStartsAfterCancel(c: Config, trace: seq<State>, steps: seq<Step>, n: nat, m: nat, i: nat)
    requires ValidConfig(c) && IsRun(c, trace, steps) && n <= m <= |steps| && trace[n].cancelled
    requires i < |trace[n].stages| && NotStarted(trace[n].stages[i])
    ensures trace[m].cancelled && i < |trace[m].stages| && NotStarted(trace[m].stages[i])
    decreases m
  {
    hide Apply, Enabled, NotStarted, ValidConfig, Init;
    if n < m {
      NothingStartsAfterCancel(c, trace, steps, n, m - 1, i);
      if IsAcquire(steps[m - 1]) {
        AcquireKeepsOut(c, trace[m - 1], steps[m - 1], i);
      } else if steps[m - 1].JoinDownload? {
        JoinKeepsOut(c, trace[m - 1], steps[m - 1], i);
      } else {
        OtherKeepsOut(c, trace[m - 1], steps[m - 1], i);
      }
    }
  }

  /** A cancelled result, of a download or of a post-process job, ends the loop: nothing happens after it. */
  lemma CancelledResultEndsTheLoop(c: Config, s: State, step: Step, next: Step)
    requires ValidConfig(c) && |s.stages| == |c.tasks| && Enabled(c, s, step)
    requires (step.JoinDownload? || step.JoinPost?) && s.stages[step.i].o == Cancel
    ensures var t := Apply(c, s, step); t.aborted && t.completed == s.completed && t.failed == s.failed && t.record == s.record
    ensures var t := Apply(c, s, step); |t.stages| == |c.tasks| && !Enabled(c, t, next)
  {
  }
}
