/**
 The executor's scheduling loop (src/core/asset_execution.rs): at most
 `downloads` jobs in the download join set, four semaphores taken in a fixed
 order, and backlog and memory permits handed from a download job to its
 post-process job.  One step is one indivisible action of one task; tokio
 semaphores serve their waiters first come, first served.  A task may be
 overtaken between the permit it gets and the queue it joins next, so it joins
 at any place.
 */
module Executor {
  import opened Common
  import opened MemoryLimiter
  import opened Tasks

  datatype Outcome = Success | Failure | Cancel

  datatype Stage =
    | Pending                     // still in the task iterator
    | WaitDownload                // spawned, queued on the download semaphore
    | WaitBacklog                 // holds a download permit
    | WaitMemory                  // holds download and backlog permits
    | Working                     // holds download, backlog and memory permits
    | DownloadDone(o: Outcome)    // finished; on success the job carries backlog and memory permits
    | WaitPost                    // post-process job queued, still carrying both
    | Posting                     // holds backlog, memory and post-process permits
    | PostTail(o: Outcome)        // job consumed, post-process permit not yet dropped
    | PostDone(o: Outcome)        // finished, not yet joined
    | Completed
    | Failed
    | Dropped                     // its `Cancelled` result made the loop return

  datatype Config = Config(tasks: seq<Task>, downloads: nat, posts: nat, limiter: Limiter,
                           record: map<string, string>)

  function BacklogCapacity(downloads: nat, posts: nat): (c: nat)
    ensures c >= 1 && (posts >= 1 ==> c == posts)
  {
    Max(posts, 1)
  }

  ghost predicate ValidConfig(c: Config) {
    && c.downloads >= 1 && c.posts >= 1
    && (c.limiter.On? ==> c.limiter.limitUnits >= 1)
    && (forall i, j :: 0 <= i < j < |c.tasks| ==> c.tasks[i].path != c.tasks[j].path)
  }

  datatype State = State(
    stages: seq<Stage>, next: nat,
    downloadFree: nat, backlogFree: nat, memoryFree: nat, postFree: nat,
    downloadQueue: seq<nat>, backlogQueue: seq<nat>, memoryQueue: seq<nat>, postQueue: seq<nat>,
    completed: nat, failed: nat, record: map<string, string>,
    cancelled: bool, aborted: bool)

  function TaskBytes(c: Config, i: nat): nat
    requires i < |c.tasks|
  {
    Max(c.tasks[i].fileSize, 0)
  }

  function TaskNeed(c: Config, i: nat): nat
    requires i < |c.tasks|
    requires c.limiter.On? ==> c.limiter.limitUnits >= 1
  {
    Need(c.limiter, TaskBytes(c, i))
  }

  function Capacity(c: Config): nat { if c.limiter.On? then c.limiter.limitUnits else 0 }

  // ---------------------------------------------------------------- steps

  datatype Step =
    | AcquireDownload(place: nat)
    | AcquireBacklog(place: nat)
    | AcquireMemory
    | FinishDownload(i: nat, o: Outcome)
    | JoinDownload(i: nat, place: nat, postPlace: nat)
    | AcquirePost
    | FinishPost(i: nat, o: Outcome)
    | LeavePost(i: nat)
    | JoinPost(i: nat)
    | RaiseCancel

  function Spawned(c: Config): nat { Min(c.downloads, |c.tasks|) }

  ghost function Init(c: Config, order: seq<nat>): State {
    var k := Spawned(c);
    State(seq(|c.tasks|, i => if i < k then WaitDownload else Pending), k,
          c.downloads, BacklogCapacity(c.downloads, c.posts), Capacity(c), c.posts,
          order, [], [], [],
          0, 0, c.record, false, false)
  }

  /** The first tasks reach the download semaphore in any order. */
  ghost predicate IsOrder(c: Config, order: seq<nat>) {
    Distinct(order) && forall i: nat :: i in order <==> i < Spawned(c)
  }

  predicate At(s: State, i: nat, st: Stage) { i < |s.stages| && s.stages[i] == st }

  predicate HeadAt(s: State, queue: seq<nat>, st: Stage) { queue != [] && At(s, queue[0], st) }

  ghost predicate Enabled(c: Config, s: State, step: Step)
    requires ValidConfig(c) && |s.stages| == |c.tasks|
  {
    !s.aborted &&
    match step
    case AcquireDownload(_) => HeadAt(s, s.downloadQueue, WaitDownload) && s.downloadFree >= 1
    case AcquireBacklog(_) => HeadAt(s, s.backlogQueue, WaitBacklog) && s.backlogFree >= 1
    case AcquireMemory => HeadAt(s, s.memoryQueue, WaitMemory) && s.memoryFree >= TaskNeed(c, s.memoryQueue[0])
    case FinishDownload(i, o) => At(s, i, Working)
    case JoinDownload(i, _, _) => i < |s.stages| && s.stages[i].DownloadDone? && s.next <= |c.tasks|
    case AcquirePost => HeadAt(s, s.postQueue, WaitPost) && s.postFree >= 1
    case FinishPost(i, o) => At(s, i, Posting)
    case LeavePost(i) => i < |s.stages| && s.stages[i].PostTail?
    case JoinPost(i) => i < |s.stages| && s.stages[i].PostDone?
    case RaiseCancel => !s.cancelled
  }

  function SetStage(s: State, i: nat, st: Stage): State
    requires i < |s.stages|
  {
    s.(stages := s.stages[i := st])
  }

  /** The queue with a task in it at some place, at the latest at the end. */
  function Join(queue: seq<nat>, place: nat, i: nat): seq<nat> {
    var k := Min(place, |queue|);
    queue[..k] + [i] + queue[k..]
  }

  /** `pending_tasks.next()` followed by a spawn. */
  function SpawnNext(s: State, place: nat): State {
    if s.next < |s.stages| then
      SetStage(s, s.next, WaitDownload).(downloadQueue := Join(s.downloadQueue, place, s.next), next := s.next + 1)
    else s
  }

  ghost function Apply(c: Config, s: State, step: Step): State
    requires ValidConfig(c) && |s.stages| == |c.tasks| && Enabled(c, s, step)
  {
    match step
    case AcquireDownload(place) =>
      var i := s.downloadQueue[0];
      var t := s.(downloadQueue := s.downloadQueue[1..]);
      if s.cancelled then SetStage(t, i, DownloadDone(Cancel))
      else SetStage(t, i, WaitBacklog).(downloadFree := s.downloadFree - 1, backlogQueue := Join(s.backlogQueue, place, i))
    case AcquireBacklog(place) =>
      var i := s.backlogQueue[0];
      SetStage(s, i, WaitMemory).(backlogQueue := s.backlogQueue[1..], backlogFree := s.backlogFree - 1,
                                  memoryQueue := Join(s.memoryQueue, place, i))
    case AcquireMemory =>
      var i := s.memoryQueue[0];
      SetStage(s, i, Working).(memoryQueue := s.memoryQueue[1..], memoryFree := s.memoryFree - TaskNeed(c, i))
    case FinishDownload(i, o) =>
      var t := SetStage(s, i, DownloadDone(o)).(downloadFree := s.downloadFree + 1);
      if o == Success then t
      else t.(backlogFree := s.backlogFree + 1, memoryFree := s.memoryFree + TaskNeed(c, i))
    case JoinDownload(i, place, postPlace) =>
      (match s.stages[i].o
       case Success => SpawnNext(SetStage(s, i, WaitPost).(postQueue := Join(s.postQueue, postPlace, i)), place)
       case Failure => SpawnNext(SetStage(s, i, Failed).(failed := s.failed + 1), place)
       case Cancel => SetStage(s, i, Dropped).(aborted := true))
    case AcquirePost =>
      var i := s.postQueue[0];
      SetStage(s, i, Posting).(postQueue := s.postQueue[1..], postFree := s.postFree - 1)
    case FinishPost(i, o) =>
      SetStage(s, i, PostTail(o)).(backlogFree := s.backlogFree + 1, memoryFree := s.memoryFree + TaskNeed(c, i))
    case LeavePost(i) =>
      SetStage(s, i, PostDone(s.stages[i].o)).(postFree := s.postFree + 1)
    case JoinPost(i) =>
      (match s.stages[i].o
       case Success => SetStage(s, i, Completed).(completed := s.completed + 1,
                                                   record := s.record[c.tasks[i].path := c.tasks[i].hash])
       case Failure => SetStage(s, i, Failed).(failed := s.failed + 1)
       case Cancel => SetStage(s, i, Dropped).(aborted := true))
    case RaiseCancel => s.(cancelled := true)
  }

  ghost predicate IsRun(c: Config, trace: seq<State>, steps: seq<Step>)
    requires ValidConfig(c)
  {
    && |trace| == |steps| + 1
    && (exists order: seq<nat> :: IsOrder(c, order) && trace[0] == Init(c, order))
    && forall i :: 0 <= i < |steps| ==>
         |trace[i].stages| == |c.tasks| && Enabled(c, trace[i], steps[i]) && trace[i + 1] == Apply(c, trace[i], steps[i])
  }

  // ---------------------------------------------------------------- totals

  /** What is added up over all tasks. */
  datatype Kind = DownloadPermits | BacklogPermits | MemoryUnits | PostPermits
                | MemoryBytes | InJoins | Live | IsCompleted | IsFailed | Rank

  predicate HoldsDownload(st: Stage) { st.WaitBacklog? || st.WaitMemory? || st.Working? }

  predicate HoldsBacklog(st: Stage) {
    st.WaitMemory? || st.Working? || st == DownloadDone(Success) || st.WaitPost? || st.Posting?
  }

  predicate HoldsMemory(st: Stage) { st.Working? || st == DownloadDone(Success) || st.WaitPost? || st.Posting? }

  predicate HoldsPost(st: Stage) { st.Posting? || st.PostTail? }

  predicate InDownloadJoins(st: Stage) {
    st.WaitDownload? || st.WaitBacklog? || st.WaitMemory? || st.Working? || st.DownloadDone?
  }

  predicate InPostJoins(st: Stage) { st.WaitPost? || st.Posting? || st.PostTail? || st.PostDone? }

  function StageRank(st: Stage): nat {
    match st
    case Pending => 10
    case WaitDownload => 9
    case WaitBacklog => 8
    case WaitMemory => 7
    case Working => 6
    case DownloadDone(_) => 5
    case WaitPost => 4
    case Posting => 3
    case PostTail(_) => 2
    case PostDone(_) => 1
    case _ => 0
  }

  function Bit(b: bool): nat { if b then 1 else 0 }

  function Weight(c: Config, k: Kind, i: nat, st: Stage): nat
    requires i < |c.tasks|
    requires c.limiter.On? ==> c.limiter.limitUnits >= 1
  {
    match k
    case DownloadPermits => Bit(HoldsDownload(st))
    case BacklogPermits => Bit(HoldsBacklog(st))
    case MemoryUnits => if HoldsMemory(st) then TaskNeed(c, i) else 0
    case PostPermits => Bit(HoldsPost(st))
    case MemoryBytes => if HoldsMemory(st) then TaskBytes(c, i) else 0
    case InJoins => Bit(InDownloadJoins(st))
    case Live => Bit(!st.Completed? && !st.Failed? && !st.Dropped?)
    case IsCompleted => Bit(st.Completed?)
    case IsFailed => Bit(st.Failed?)
    case Rank => StageRank(st)
  }

  ghost function Weights(c: Config, k: Kind, stages: seq<Stage>): (ws: seq<nat>)
    requires |stages| == |c.tasks|
    requires c.limiter.On? ==> c.limiter.limitUnits >= 1
    ensures |ws| == |stages|
    ensures forall i :: 0 <= i < |stages| ==> ws[i] == Weight(c, k, i, stages[i])
  {
    seq(|stages|, i requires 0 <= i < |stages| => Weight(c, k, i, stages[i]))
  }

  ghost function Total(c: Config, k: Kind, stages: seq<Stage>): nat
    requires |stages| == |c.tasks|
    requires c.limiter.On? ==> c.limiter.limitUnits >= 1
  {
    Sum(Weights(c, k, stages))
  }

  /** Moving one task to another stage shifts every total by that task's weight alone. */
  lemma Shift(c: Config, stages: seq<Stage>, i: nat, st: Stage)
    requires |stages| == |c.tasks| && i < |stages|
    requires c.limiter.On? ==> c.limiter.limitUnits >= 1
    ensures forall k :: Total(c, k, stages[i := st]) ==
                        Total(c, k, stages) - Weight(c, k, i, stages[i]) + Weight(c, k, i, st)
    ensures forall k :: Weight(c, k, i, stages[i]) <= Total(c, k, stages)
  {
    forall k
      ensures Total(c, k, stages[i := st]) ==
              Total(c, k, stages) - Weight(c, k, i, stages[i]) + Weight(c, k, i, st)
      ensures Weight(c, k, i, stages[i]) <= Total(c, k, stages)
    {
      var ws := Weights(c, k, stages);
      assert Weights(c, k, stages[i := st]) == ws[i := Weight(c, k, i, st)];
      SumUpdate(ws, i, Weight(c, k, i, st));
    }
  }

  lemma NobodyHolds(c: Config, k: Kind, stages: seq<Stage>)
    requires |stages| == |c.tasks|
    requires c.limiter.On? ==> c.limiter.limitUnits >= 1
    requires forall i :: 0 <= i < |stages| ==> Weight(c, k, i, stages[i]) == 0
    ensures Total(c, k, stages) == 0
  {
    SumAllZero(Weights(c, k, stages));
  }

  // ---------------------------------------------------------------- invariant

  /** A semaphore's queue lists exactly the tasks waiting on it, once each. */
  ghost predicate QueueIs(s: State, queue: seq<nat>, st: Stage) {
    && Distinct(queue)
    && (forall q :: 0 <= q < |queue| ==> At(s, queue[q], st))
    && (forall i :: At(s, i, st) ==> i in queue)
  }

  ghost predicate QueuesOk(s: State) {
    && QueueIs(s, s.downloadQueue, WaitDownload)
    && QueueIs(s, s.backlogQueue, WaitBacklog)
    && QueueIs(s, s.memoryQueue, WaitMemory)
    && QueueIs(s, s.postQueue, WaitPost)
  }

  /** Permits are neither lost nor duplicated. */
  ghost predicate PermitsConserved(c: Config, s: State)
    requires ValidConfig(c) && |s.stages| == |c.tasks|
  {
    && s.downloadFree + Total(c, DownloadPermits, s.stages) == c.downloads
    && s.backlogFree + Total(c, BacklogPermits, s.stages) == BacklogCapacity(c.downloads, c.posts)
    && s.memoryFree + Total(c, MemoryUnits, s.stages) == Capacity(c)
    && s.postFree + Total(c, PostPermits, s.stages) == c.posts
  }

  ghost predicate IteratorOk(c: Config, s: State)
    requires ValidConfig(c) && |s.stages| == |c.tasks|
  {
    && s.next <= |c.tasks|
    && (forall i :: 0 <= i < |s.stages| ==> (s.stages[i].Pending? <==> i >= s.next))
    && (!s.aborted ==> Total(c, InJoins, s.stages) <= c.downloads)
    && (!s.aborted && s.next < |c.tasks| ==> Total(c, InJoins, s.stages) == c.downloads)
    && (!s.aborted ==> forall i :: 0 <= i < |s.stages| ==> !s.stages[i].Dropped?)
  }

  ghost predicate DonePath(c: Config, stages: seq<Stage>, p: string)
    requires |stages| == |c.tasks|
  {
    exists i :: 0 <= i < |stages| && stages[i].Completed? && c.tasks[i].path == p
  }

  /** The record is the initial one overwritten by exactly the completed bundles. */
  ghost predicate RecordIs(c: Config, stages: seq<Stage>, r: map<string, string>)
    requires |stages| == |c.tasks|
  {
    && (forall i :: 0 <= i < |stages| && stages[i].Completed? ==>
         c.tasks[i].path in r && r[c.tasks[i].path] == c.tasks[i].hash)
    && (forall p :: p in c.record && !DonePath(c, stages, p) ==> p in r && r[p] == c.record[p])
    && (forall p :: p in r && !DonePath(c, stages, p) ==> p in c.record)
  }

  ghost predicate CountsOk(c: Config, s: State)
    requires ValidConfig(c) && |s.stages| == |c.tasks|
  {
    && s.completed == Total(c, IsCompleted, s.stages)
    && s.failed == Total(c, IsFailed, s.stages)
    && s.completed + s.failed + Total(c, Live, s.stages) + Bit(s.aborted) == |c.tasks|
  }

  ghost predicate Inv(c: Config, s: State)
    requires ValidConfig(c)
  {
    && |s.stages| == |c.tasks|
    && QueuesOk(s)
    && PermitsConserved(c, s)
    && IteratorOk(c, s)
    && CountsOk(c, s)
    && RecordIs(c, s.stages, s.record)
  }

  ghost function Measure(c: Config, s: State): nat
    requires ValidConfig(c) && |s.stages| == |c.tasks|
  {
    Total(c, Rank, s.stages) + Bit(!s.cancelled)
  }
}

/** Every step of the scheduling loop keeps its invariant and lowers the rank. */
module ExecutorSteps {
  import opened Common
  import opened MemoryLimiter
  import opened Tasks
  import opened Executor

  lemma {:induction false} SumLeading(xs: seq<nat>, k: nat)
    requires k <= |xs|
    requires forall i :: 0 <= i < |xs| ==> xs[i] == if i < k then 1 else 0
    ensures Sum(xs) == k
  {
    if k == 0 {
      SumAllZero(xs);
    } else {
      SumLeading(xs[1..], k - 1);
    }
  }

  lemma LeadingHold(c: Config, k: Kind, stages: seq<Stage>, n: nat)
    requires |stages| == |c.tasks| && n <= |stages|
    requires c.limiter.On? ==> c.limiter.limitUnits >= 1
    requires forall i :: 0 <= i < |stages| ==> Weight(c, k, i, stages[i]) == Bit(i < n)
    ensures Total(c, k, stages) == n
  {
    SumLeading(Weights(c, k, stages), n);
  }

  lemma InitTotals(c: Config, order: seq<nat>)
    requires ValidConfig(c)
    ensures PermitsConserved(c, Init(c, order)) && CountsOk(c, Init(c, order)) && IteratorOk(c, Init(c, order))
  {
    hide Total, Weights, Sum;
    var stages := Init(c, order).stages;
    NobodyHolds(c, DownloadPermits, stages);
    NobodyHolds(c, BacklogPermits, stages);
    NobodyHolds(c, MemoryUnits, stages);
    NobodyHolds(c, PostPermits, stages);
    NobodyHolds(c, IsCompleted, stages);
    NobodyHolds(c, IsFailed, stages);
    LeadingHold(c, InJoins, stages, Spawned(c));
    LeadingHold(c, Live, stages, |c.tasks|);
  }

  lemma InitInv(c: Config, order: seq<nat>)
    requires ValidConfig(c) && IsOrder(c, order)
    ensures Inv(c, Init(c, order))
  {
    hide PermitsConserved, CountsOk, IteratorOk, Total;
    var s := Init(c, order);
    InitTotals(c, order);
    forall q | 0 <= q < |order| ensures At(s, order[q], WaitDownload) {
      assert order[q] in order;
    }
    forall p ensures !DonePath(c, s.stages, p) {
    }
  }

  // Queues: a task leaves the head of one queue and may join another.

  lemma QueueUntouched(s: State, t: State, queue: seq<nat>, st: Stage)
    requires QueueIs(s, queue, st)
    requires |t.stages| == |s.stages|
    requires forall i :: 0 <= i < |s.stages| ==> (s.stages[i] == st <==> t.stages[i] == st)
    ensures QueueIs(t, queue, st)
  {
  }

  lemma QueuePopped(s: State, t: State, queue: seq<nat>, st: Stage)
    requires QueueIs(s, queue, st) && queue != []
    requires |t.stages| == |s.stages| && t.stages[queue[0]] != st
    requires forall i :: 0 <= i < |s.stages| && i != queue[0] ==> (s.stages[i] == st <==> t.stages[i] == st)
    ensures QueueIs(t, queue[1..], st)
  {
    forall i | At(t, i, st) ensures i in queue[1..] {
      assert At(s, i, st);
      assert queue == [queue[0]] + queue[1..];
    }
  }

  lemma QueueJoined(s: State, t: State, queue: seq<nat>, st: Stage, j: nat, place: nat)
    requires QueueIs(s, queue, st) && j < |s.stages| && s.stages[j] != st
    requires |t.stages| == |s.stages| && t.stages[j] == st
    requires forall i :: 0 <= i < |s.stages| && i != j ==> (s.stages[i] == st <==> t.stages[i] == st)
    ensures QueueIs(t, Join(queue, place, j), st)
  {
    var k := Min(place, |queue|);
    var more := Join(queue, place, j);
    assert queue == queue[..k] + queue[k..];
    forall i | At(t, i, st) ensures i in more {
      assert i == j || At(s, i, st);
    }
  }

  lemma RecordUntouched(c: Config, s: State, t: State)
    requires |s.stages| == |t.stages| == |c.tasks| && RecordIs(c, s.stages, s.record) && t.record == s.record
    requires forall i :: 0 <= i < |s.stages| ==> (s.stages[i].Completed? <==> t.stages[i].Completed?)
    ensures RecordIs(c, t.stages, t.record)
  {
    forall p ensures DonePath(c, s.stages, p) <==> DonePath(c, t.stages, p) {
    }
  }

  lemma RecordExtended(c: Config, s: State, t: State, i: nat)
    requires ValidConfig(c)
    requires |s.stages| == |t.stages| == |c.tasks| && RecordIs(c, s.stages, s.record) && i < |s.stages|
    requires !s.stages[i].Completed? && t.stages == s.stages[i := Completed]
    requires t.record == s.record[c.tasks[i].path := c.tasks[i].hash]
    ensures RecordIs(c, t.stages, t.record)
  {
    assert t.stages[i].Completed?;
    forall p | DonePath(c, s.stages, p) ensures DonePath(c, t.stages, p) {
      var j :| 0 <= j < |s.stages| && s.stages[j].Completed? && c.tasks[j].path == p;
      assert t.stages[j].Completed?;
    }
    forall p | DonePath(c, t.stages, p) && p != c.tasks[i].path ensures DonePath(c, s.stages, p) {
      var j :| 0 <= j < |t.stages| && t.stages[j].Completed? && c.tasks[j].path == p;
      assert s.stages[j].Completed?;
    }
    assert DonePath(c, t.stages, c.tasks[i].path);
  }

  /**
   Task `i` alone changes stage and the free permits and counters change by
   exactly the difference between its two stages.
   */
  ghost predicate LocalMove(c: Config, s: State, t: State, i: nat)
    requires ValidConfig(c) && |s.stages| == |c.tasks|
  {
    && i < |s.stages| && |t.stages| == |s.stages|
    && t.stages == s.stages[i := t.stages[i]]
    && t.next == s.next && !s.aborted && !t.aborted
    && var (a, b) := (s.stages[i], t.stages[i]);
    && t.downloadFree + Bit(HoldsDownload(b)) == s.downloadFree + Bit(HoldsDownload(a))
    && t.backlogFree + Bit(HoldsBacklog(b)) == s.backlogFree + Bit(HoldsBacklog(a))
    && t.memoryFree + Weight(c, MemoryUnits, i, b) == s.memoryFree + Weight(c, MemoryUnits, i, a)
    && t.postFree + Bit(HoldsPost(b)) == s.postFree + Bit(HoldsPost(a))
    && t.completed == s.completed + Bit(b.Completed?) && !a.Completed?
    && t.failed == s.failed + Bit(b.Failed?) && !a.Failed?
    && InDownloadJoins(b) == InDownloadJoins(a)
    && !a.Pending? && !b.Pending? && !b.Dropped?
    && StageRank(b) < StageRank(a)
  }

  lemma MoveKeepsTotals(c: Config, s: State, t: State, i: nat)
    requires ValidConfig(c) && |s.stages| == |c.tasks|
    requires PermitsConserved(c, s) && IteratorOk(c, s) && CountsOk(c, s)
    requires LocalMove(c, s, t, i)
    ensures PermitsConserved(c, t) && IteratorOk(c, t) && CountsOk(c, t)
    ensures Total(c, Rank, t.stages) < Total(c, Rank, s.stages)
  {
    hide Total, Weights, Sum;
    Shift(c, s.stages, i, t.stages[i]);
    assert Total(c, DownloadPermits, t.stages) + Bit(HoldsDownload(s.stages[i])) ==
           Total(c, DownloadPermits, s.stages) + Bit(HoldsDownload(t.stages[i]));
    assert Total(c, BacklogPermits, t.stages) + Bit(HoldsBacklog(s.stages[i])) ==
           Total(c, BacklogPermits, s.stages) + Bit(HoldsBacklog(t.stages[i]));
    assert Total(c, PostPermits, t.stages) + Bit(HoldsPost(s.stages[i])) ==
           Total(c, PostPermits, s.stages) + Bit(HoldsPost(t.stages[i]));
    assert Total(c, InJoins, t.stages) == Total(c, InJoins, s.stages);
  }

  /** The ledger: permits, iterator and counters. */
  ghost predicate Ledger(c: Config, s: State)
    requires ValidConfig(c)
  {
    |s.stages| == |c.tasks| && PermitsConserved(c, s) && IteratorOk(c, s) && CountsOk(c, s)
  }

  ghost predicate LedgerKept(c: Config, s: State, t: State)
    requires ValidConfig(c) && |s.stages| == |c.tasks|
  {
    Ledger(c, t) && Total(c, Rank, t.stages) < Total(c, Rank, s.stages)
  }

  /** The task at the head of the queue that an acquisition serves. */
  function Head(s: State, step: Step): nat
    requires (step.AcquireDownload? && s.downloadQueue != []) || (step.AcquireBacklog? && s.backlogQueue != [])
             || (step.AcquireMemory? && s.memoryQueue != []) || (step.AcquirePost? && s.postQueue != [])
  {
    match step
    case AcquireDownload(_) => s.downloadQueue[0]
    case AcquireBacklog(_) => s.backlogQueue[0]
    case AcquireMemory => s.memoryQueue[0]
    case AcquirePost => s.postQueue[0]
  }

  predicate IsAcquire(step: Step) {
    step.AcquireDownload? || step.AcquireBacklog? || step.AcquireMemory? || step.AcquirePost?
  }

  lemma AcquireIsLocal(c: Config, s: State, step: Step)
    requires ValidConfig(c) && |s.stages| == |c.tasks| && Enabled(c, s, step) && IsAcquire(step)
    ensures LocalMove(c, s, Apply(c, s, step), Head(s, step))
  {
    hide Need, Max, Min;
  }

  lemma SettleIsLocal(c: Config, s: State, step: Step)
    requires ValidConfig(c) && |s.stages| == |c.tasks| && Enabled(c, s, step)
    requires step.FinishDownload? || step.FinishPost? || step.LeavePost? || (step.JoinPost? && s.stages[step.i].o != Cancel)
    ensures LocalMove(c, s, Apply(c, s, step), step.i)
  {
    hide Need, Max, Min;
  }

  /** A joined `Cancelled` result: the loop returns at once. */
  lemma AbortLedger(c: Config, s: State, t: State, i: nat)
    requires ValidConfig(c) && Ledger(c, s) && !s.aborted && i < |s.stages|
    requires s.stages[i] == DownloadDone(Cancel) || s.stages[i] == PostDone(Cancel)
    requires t == SetStage(s, i, Dropped).(aborted := true)
    ensures LedgerKept(c, s, t)
  {
    hide Total, Weights, Sum;
    Shift(c, s.stages, i, Dropped);
    assert Total(c, Live, t.stages) == Total(c, Live, s.stages) - 1;
    assert Total(c, Rank, t.stages) < Total(c, Rank, s.stages);
  }

  /** Where a joined download goes. */
  function JoinedTo(o: Outcome): Stage { if o == Success then WaitPost else Failed }

  lemma JoinMid(c: Config, stages: seq<Stage>, i: nat, o: Outcome)
    requires ValidConfig(c) && |stages| == |c.tasks| && i < |stages| && stages[i] == DownloadDone(o) && o != Cancel
    ensures var mid := stages[i := JoinedTo(o)];
            && (forall k :: k != InJoins && k != Live && k != IsFailed && k != Rank ==>
                 Total(c, k, mid) == Total(c, k, stages))
            && Total(c, InJoins, mid) == Total(c, InJoins, stages) - 1
            && Total(c, IsFailed, mid) == Total(c, IsFailed, stages) + Bit(o == Failure)
            && Total(c, Live, mid) == Total(c, Live, stages) - Bit(o == Failure)
            && Total(c, Rank, mid) < Total(c, Rank, stages)
  {
    hide Total;
    Shift(c, stages, i, JoinedTo(o));
  }

  lemma SpawnShift(c: Config, mid: seq<Stage>, n: nat)
    requires ValidConfig(c) && |mid| == |c.tasks| && n < |mid| && mid[n].Pending?
    ensures forall k :: k != InJoins && k != Rank ==> Total(c, k, mid[n := WaitDownload]) == Total(c, k, mid)
    ensures Total(c, InJoins, mid[n := WaitDownload]) == Total(c, InJoins, mid) + 1
    ensures Total(c, Rank, mid[n := WaitDownload]) < Total(c, Rank, mid)
  {
    Shift(c, mid, n, WaitDownload);
  }

  /** Joining a finished download: the job moves on or fails, and the next task is spawned. */
  lemma JoinLedger(c: Config, s: State, step: Step)
    requires ValidConfig(c) && Ledger(c, s) && step.JoinDownload? && Enabled(c, s, step) && s.stages[step.i].o != Cancel
    ensures LedgerKept(c, s, Apply(c, s, step))
  {
    hide Total, Weights, Sum, Join;
    var t, i := Apply(c, s, step), step.i;
    var mid := s.stages[i := JoinedTo(s.stages[i].o)];
    JoinMid(c, s.stages, i, s.stages[i].o);
    if s.next < |c.tasks| {
      assert t.stages == mid[s.next := WaitDownload];
      SpawnShift(c, mid, s.next);
    } else {
      assert t.stages == mid;
    }
  }

  lemma QueuesUntouched(s: State, t: State)
    requires QueuesOk(s) && |t.stages| == |s.stages|
    requires t.downloadQueue == s.downloadQueue && t.backlogQueue == s.backlogQueue
    requires t.memoryQueue == s.memoryQueue && t.postQueue == s.postQueue
    requires forall i :: 0 <= i < |s.stages| && s.stages[i] != t.stages[i] ==>
               Unqueued(s.stages[i]) && Unqueued(t.stages[i])
    ensures QueuesOk(t)
  {
    QueueUntouched(s, t, s.downloadQueue, WaitDownload);
    QueueUntouched(s, t, s.backlogQueue, WaitBacklog);
    QueueUntouched(s, t, s.memoryQueue, WaitMemory);
    QueueUntouched(s, t, s.postQueue, WaitPost);
  }

  predicate Unqueued(st: Stage) {
    !st.WaitDownload? && !st.WaitBacklog? && !st.WaitMemory? && !st.WaitPost?
  }

  lemma AcquireQueues(c: Config, s: State, step: Step)
    requires ValidConfig(c) && |s.stages| == |c.tasks| && QueuesOk(s) && Enabled(c, s, step)
    requires step.AcquireDownload? || step.AcquireBacklog? || step.AcquireMemory? || step.AcquirePost?
    ensures QueuesOk(Apply(c, s, step))
  {
    hide QueueIs, Need, Join;
    assert QueueIs(s, s.downloadQueue, WaitDownload) && QueueIs(s, s.backlogQueue, WaitBacklog);
    assert QueueIs(s, s.memoryQueue, WaitMemory) && QueueIs(s, s.postQueue, WaitPost);
    var t := Apply(c, s, step);
    if step.AcquireDownload? { QueuePopped(s, t, s.downloadQueue, WaitDownload); }
    else { QueueUntouched(s, t, s.downloadQueue, WaitDownload); }
    if step.AcquireBacklog? { QueuePopped(s, t, s.backlogQueue, WaitBacklog); }
    else if step.AcquireDownload? && !s.cancelled { QueueJoined(s, t, s.backlogQueue, WaitBacklog, s.downloadQueue[0], step.place); }
    else { QueueUntouched(s, t, s.backlogQueue, WaitBacklog); }
    if step.AcquireMemory? { QueuePopped(s, t, s.memoryQueue, WaitMemory); }
    else if step.AcquireBacklog? { QueueJoined(s, t, s.memoryQueue, WaitMemory, s.backlogQueue[0], step.place); }
    else { QueueUntouched(s, t, s.memoryQueue, WaitMemory); }
    if step.AcquirePost? { QueuePopped(s, t, s.postQueue, WaitPost); }
    else { QueueUntouched(s, t, s.postQueue, WaitPost); }
  }

  lemma JoinQueues(c: Config, s: State, step: Step)
    requires ValidConfig(c) && |s.stages| == |c.tasks| && QueuesOk(s)
    requires step.JoinDownload? && Enabled(c, s, step) && s.stages[step.i].o != Cancel
    requires s.next < |c.tasks| ==> s.stages[s.next].Pending?
    ensures QueuesOk(Apply(c, s, step))
  {
    var t, i := Apply(c, s, step), step.i;
    var to := JoinedTo(s.stages[i].o);
    QueueUntouched(s, t, s.backlogQueue, WaitBacklog);
    QueueUntouched(s, t, s.memoryQueue, WaitMemory);
    if to == WaitPost { QueueJoined(s, t, s.postQueue, WaitPost, i, step.postPlace); }
    else { QueueUntouched(s, t, s.postQueue, WaitPost); }
    if s.next < |c.tasks| { QueueJoined(s, t, s.downloadQueue, WaitDownload, s.next, step.place); }
    else { QueueUntouched(s, t, s.downloadQueue, WaitDownload); }
  }

  lemma LocalKeepsLedger(c: Config, s: State, t: State, i: nat)
    requires ValidConfig(c) && Ledger(c, s) && LocalMove(c, s, t, i)
    ensures LedgerKept(c, s, t)
  {
    hide Total;
    MoveKeepsTotals(c, s, t, i);
  }

  lemma StepKeepsLedger(c: Config, s: State, step: Step)
    requires ValidConfig(c) && Ledger(c, s) && Enabled(c, s, step) && !step.RaiseCancel?
    ensures LedgerKept(c, s, Apply(c, s, step))
  {
    hide Apply, LedgerKept, LocalMove, PermitsConserved, IteratorOk, CountsOk, Total;
    if step.JoinDownload? || (step.JoinPost? && s.stages[step.i].o == Cancel) {
      JoinKeepsLedger(c, s, step);
    } else if IsAcquire(step) {
      AcquireIsLocal(c, s, step);
      LocalKeepsLedger(c, s, Apply(c, s, step), Head(s, step));
    } else {
      SettleIsLocal(c, s, step);
      LocalKeepsLedger(c, s, Apply(c, s, step), step.i);
    }
  }

  lemma JoinKeepsLedger(c: Config, s: State, step: Step)
    requires ValidConfig(c) && Ledger(c, s) && Enabled(c, s, step)
    requires step.JoinDownload? || (step.JoinPost? && s.stages[step.i].o == Cancel)
    ensures LedgerKept(c, s, Apply(c, s, step))
  {
    hide LedgerKept, PermitsConserved, IteratorOk, CountsOk, Total;
    if s.stages[step.i].o == Cancel { AbortLedger(c, s, Apply(c, s, step), step.i); }
    else { JoinLedger(c, s, step); }
  }

  lemma OtherQueues(c: Config, s: State, step: Step)
    requires ValidConfig(c) && |s.stages| == |c.tasks| && QueuesOk(s) && Enabled(c, s, step)
    requires step.FinishDownload? || step.FinishPost? || step.LeavePost? || step.JoinPost? || step.RaiseCancel?
             || (step.JoinDownload? && s.stages[step.i].o == Cancel)
    ensures QueuesOk(Apply(c, s, step))
  {
    hide QueuesOk, Need;
    QueuesUntouched(s, Apply(c, s, step));
  }

  lemma StepKeepsQueues(c: Config, s: State, step: Step)
    requires ValidConfig(c) && |s.stages| == |c.tasks| && QueuesOk(s) && Enabled(c, s, step)
    requires s.next < |c.tasks| ==> s.stages[s.next].Pending?
    ensures QueuesOk(Apply(c, s, step))
  {
    hide Apply, QueuesOk;
    match step {
      case AcquireDownload(_) => AcquireQueues(c, s, step);
      case AcquireBacklog(_) => AcquireQueues(c, s, step);
      case AcquireMemory => AcquireQueues(c, s, step);
      case AcquirePost => AcquireQueues(c, s, step);
      case JoinDownload(i, _, _) =>
        if s.stages[i].o == Cancel { OtherQueues(c, s, step); }
        else { JoinQueues(c, s, step); }
      case _ => OtherQueues(c, s, step);
    }
  }

  /** Only a successful post-process join completes a task; everything else leaves the record alone. */
  lemma AcquireRecord(c: Config, s: State, step: Step)
    requires ValidConfig(c) && |s.stages| == |c.tasks| && RecordIs(c, s.stages, s.record) && Enabled(c, s, step)
    requires IsAcquire(step)
    ensures RecordKept(c, Apply(c, s, step))
  {
    hide RecordIs, Need;
    RecordUntouched(c, s, Apply(c, s, step));
  }

  lemma SettleRecord(c: Config, s: State, step: Step)
    requires ValidConfig(c) && |s.stages| == |c.tasks| && RecordIs(c, s.stages, s.record) && Enabled(c, s, step)
    requires !IsAcquire(step) && !step.JoinDownload?
    ensures RecordKept(c, Apply(c, s, step))
  {
    hide RecordIs, Need;
    if step.JoinPost? && s.stages[step.i].o == Success {
      RecordExtended(c, s, Apply(c, s, step), step.i);
    } else {
      RecordUntouched(c, s, Apply(c, s, step));
    }
  }

  lemma JoinRecord(c: Config, s: State, step: Step)
    requires ValidConfig(c) && |s.stages| == |c.tasks| && RecordIs(c, s.stages, s.record)
    requires step.JoinDownload? && Enabled(c, s, step)
    requires s.next < |c.tasks| ==> s.stages[s.next].Pending?
    ensures RecordKept(c, Apply(c, s, step))
  {
    hide RecordIs, Need;
    RecordUntouched(c, s, Apply(c, s, step));
  }

  ghost predicate RecordKept(c: Config, t: State) {
    |t.stages| == |c.tasks| && RecordIs(c, t.stages, t.record)
  }

  lemma StepKeepsRecord(c: Config, s: State, step: Step)
    requires ValidConfig(c) && |s.stages| == |c.tasks| && RecordIs(c, s.stages, s.record) && Enabled(c, s, step)
    requires s.next < |c.tasks| ==> s.stages[s.next].Pending?
    ensures RecordKept(c, Apply(c, s, step))
  {
    hide RecordKept, RecordIs, Apply;
    if IsAcquire(step) { AcquireRecord(c, s, step); }
    else if step.JoinDownload? { JoinRecord(c, s, step); }
    else { SettleRecord(c, s, step); }
  }

  lemma StepKeepsInv(c: Config, s: State, step: Step)
    requires ValidConfig(c) && Inv(c, s) && Enabled(c, s, step)
    ensures Inv(c, Apply(c, s, step))
    ensures Measure(c, Apply(c, s, step)) < Measure(c, s)
  {
    hide Apply, Enabled, QueuesOk, PermitsConserved, CountsOk, RecordIs, Total;
    assert s.next < |c.tasks| ==> s.stages[s.next].Pending?;
    StepKeepsQueues(c, s, step);
    StepKeepsRecord(c, s, step);
    CancelFlag(c, s, step);
    if !step.RaiseCancel? { StepKeepsLedger(c, s, step); }
  }

  /** Only `RaiseCancel` touches the flag, and it touches nothing else. */
  lemma CancelFlag(c: Config, s: State, step: Step)
    requires ValidConfig(c) && |s.stages| == |c.tasks| && Enabled(c, s, step)
    ensures !step.RaiseCancel? ==> Apply(c, s, step).cancelled == s.cancelled
    ensures step.RaiseCancel? ==> !s.cancelled && Apply(c, s, step) == s.(cancelled := true)
    ensures Ledger(c, s) && step.RaiseCancel? ==> Ledger(c, Apply(c, s, step))
  {
    hide Need, Total;
  }

  lemma {:induction false} RunKeepsInv(c: Config, trace: seq<State>, steps: seq<Step>, n: nat)
    requires ValidConfig(c) && IsRun(c, trace, steps) && n <= |steps|
    ensures Inv(c, trace[n])
    ensures Measure(c, trace[n]) + n <= 10 * |c.tasks| + 1
  {
    if n == 0 {
      var order: seq<nat> :| IsOrder(c, order) && trace[0] == Init(c, order);
      InitInv(c, order);
      RankBound(c, Weights(c, Rank, trace[0].stages));
    } else {
      hide Apply, Enabled, QueuesOk, PermitsConserved, IteratorOk, CountsOk, RecordIs;
      RunKeepsInv(c, trace, steps, n - 1);
      StepKeepsInv(c, trace[n - 1], steps[n - 1]);
    }
  }

  lemma {:induction false} RankBound(c: Config, ws: seq<nat>)
    requires forall i :: 0 <= i < |ws| ==> ws[i] <= 10
    ensures Sum(ws) <= 10 * |ws|
  {
    if ws != [] {
      RankBound(c, ws[1..]);
    }
  }
}
