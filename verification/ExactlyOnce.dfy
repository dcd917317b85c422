/** What a completed attempt has told the gateway, and what it leaves for the next. */
module ExactlyOnce {
  import opened Common
  import opened BundleDiff
  import opened Tasks
  import opened CheckFiltering
  import opened Attempt
  import opened AttemptAccounting
  import opened Batching
  import Steps = AttemptBatching

  function TaskPaths(ts: seq<Task>): seq<string> { seq(|ts|, i requires 0 <= i < |ts| => ts[i].path) }

  function ListedPaths(es: seq<Completion>): seq<string> { seq(|es|, i requires 0 <= i < |es| => es[i].path) }

  lemma TaskPathsAppend(a: seq<Task>, b: seq<Task>)
    ensures TaskPaths(a + b) == TaskPaths(a) + TaskPaths(b)
  {
  }

  /** Rearranging tasks rearranges their paths. */
  lemma {:induction false} PathsOfPermutation(a: seq<Task>, b: seq<Task>)
    requires multiset(a) == multiset(b)
    ensures multiset(TaskPaths(a)) == multiset(TaskPaths(b))
  {
    hide TaskPaths;
    if a == [] {
      assert |multiset(b)| == 0;
      assert b == [];
    } else {
      var j := Find(a[0], b);
      RemoveOne(a, b, j);
      var rest := b[..j] + b[j + 1..];
      PathsOfPermutation(a[1..], rest);
      PathsAround(a, 0);
      PathsAround(b, j);
      assert a[..0] + a[1..] == a[1..];
    }
  }

  lemma Find(t: Task, b: seq<Task>) returns (j: nat)
    requires t in multiset(b)
    ensures j < |b| && b[j] == t
  {
    assert t in b;
    j :| 0 <= j < |b| && b[j] == t;
  }

  lemma RemoveOne(a: seq<Task>, b: seq<Task>, j: nat)
    requires multiset(a) == multiset(b) && a != [] && j < |b| && b[j] == a[0]
    ensures multiset(a[1..]) == multiset(b[..j] + b[j + 1..])
  {
    assert a == [a[0]] + a[1..];
    assert b == b[..j] + [b[j]] + b[j + 1..];
    assert multiset([a[0]] + a[1..]) == multiset{a[0]} + multiset(a[1..]) == multiset(a[1..]) + multiset{a[0]};
    assert multiset(b[..j] + [b[j]] + b[j + 1..]) == multiset(b[..j]) + multiset{b[j]} + multiset(b[j + 1..])
           == multiset(b[..j] + b[j + 1..]) + multiset{b[j]};
    Cancel(multiset(a[1..]), multiset(b[..j] + b[j + 1..]), a[0]);
  }

  lemma Cancel(m: multiset<Task>, n: multiset<Task>, x: Task)
    requires m + multiset{x} == n + multiset{x}
    ensures m == n
  {
    assert m == (m + multiset{x}) - multiset{x};
    assert n == (n + multiset{x}) - multiset{x};
  }

  lemma PathsAround(b: seq<Task>, j: nat)
    requires j < |b|
    ensures multiset(TaskPaths(b)) == multiset(TaskPaths(b[..j] + b[j + 1..])) + multiset{b[j].path}
  {
    var (l, r) := (TaskPaths(b[..j]), TaskPaths(b[j + 1..]));
    assert TaskPaths(b) == l + [b[j].path] + r;
    TaskPathsAppend(b[..j], b[j + 1..]);
  }

  lemma SkipReportPaths(ts: seq<Task>)
    ensures multiset(ListedPaths(SkipEntries(ts))) == multiset(TaskPaths(ts))
  {
    var zeroed := seq(|ts|, i requires 0 <= i < |ts| => ts[i].(priority := 0));
    assert TaskPaths(zeroed) == TaskPaths(ts);
    PathsOfPermutation(ByPath(ts), zeroed);
    assert ListedPaths(SkipEntries(ts)) == TaskPaths(ByPath(ts));
  }

  /** The skip report lists its bundles in strictly ascending order of path. */
  lemma SkipReportSorted(ts: seq<Task>, i: nat, j: nat)
    requires DistinctPaths(ts) && i < j < |SkipEntries(ts)|
    ensures StrLess(SkipEntries(ts)[i].path, SkipEntries(ts)[j].path)
  {
    var zeroed := seq(|ts|, k requires 0 <= k < |ts| => ts[k].(priority := 0));
    SortTasksSorted(zeroed);
    var sorted := ByPath(ts);
    assert sorted[i] in multiset(sorted) && sorted[j] in multiset(sorted);
    assert sorted[i] in zeroed && sorted[j] in zeroed;
    assert Before(sorted[i], sorted[j]);
  }

  lemma DistinctCounts(ss: seq<string>, x: string)
    requires Distinct(ss)
    ensures multiset(ss)[x] <= 1
    decreases |ss|
  {
    if ss != [] {
      assert ss == [ss[0]] + ss[1..];
      DistinctCounts(ss[1..], x);
    }
  }

  lemma CompletionPaths(skipped: seq<Task>, produced: seq<Task>)
    ensures multiset(ListedPaths(SkipEntries(skipped) + Entries(produced, FromBatch))) ==
            multiset(TaskPaths(skipped)) + multiset(TaskPaths(produced))
  {
    SkipReportPaths(skipped);
    hide SkipEntries;
    var e := SkipEntries(skipped);
    assert ListedPaths(e + Entries(produced, FromBatch)) == ListedPaths(e) + TaskPaths(produced);
  }

  lemma PlanPaths(plan: seq<Task>, skipped: seq<Task>, produced: seq<Task>, failed: seq<Task>)
    requires multiset(plan) == multiset(skipped) + multiset(produced) + multiset(failed)
    ensures multiset(TaskPaths(plan)) ==
            multiset(TaskPaths(skipped)) + multiset(TaskPaths(produced)) + multiset(TaskPaths(failed))
  {
    PathsOfPermutation(plan, skipped + produced + failed);
    TaskPathsAppend(skipped + produced, failed);
    TaskPathsAppend(skipped, produced);
  }

  lemma {:induction false} InPaths(ts: seq<Task>, t: Task)
    requires t in ts
    ensures multiset(TaskPaths(ts))[t.path] >= 1
  {
    var i :| 0 <= i < |ts| && ts[i] == t;
    assert TaskPaths(ts)[i] == t.path;
    assert t.path in multiset(TaskPaths(ts));
  }

  /** How often the attempt's COMMITs list a path. */
  ghost function TimesListed(s: State, path: string): nat
    requires s.r.base <= |s.w.log|
  {
    multiset(ListedPaths(Completions(Tail(s))))[path]
  }

  lemma OnceEach(plan: seq<Task>, skipped: seq<Task>, produced: seq<Task>, failed: seq<Task>, t: Task)
    requires DistinctPaths(plan) && t in plan
    requires multiset(plan) == multiset(skipped) + multiset(produced) + multiset(failed)
    ensures (multiset(TaskPaths(skipped)) + multiset(TaskPaths(produced)))[t.path] == if t in failed then 0 else 1
  {
    PlanPaths(plan, skipped, produced, failed);
    assert Distinct(TaskPaths(plan));
    DistinctCounts(TaskPaths(plan), t.path);
    if t in failed {
      InPaths(failed, t);
    } else {
      assert t in multiset(plan);
      assert t in skipped || t in produced;
      if t in skipped { InPaths(skipped, t); } else { InPaths(produced, t); }
    }
  }

  /**
   In every uncancelled HIP attempt about to complete, the planned tasks split
   exactly into CHECK-skipped, artefact-producing and failed; over all of its
   COMMITs each non-failed task is listed exactly once and each failed one
   never; and the skip counters add up to the skipped tasks with at most the
   first COMMIT carrying any.
   */
  lemma CompletedAttemptReportsEachTaskOnce(c: Config, trace: seq<State>, steps: seq<Step>)
    requires IsRun(c, trace, steps) && c.hip
    requires var s := trace[|steps|];
             s.main.Finishing? && !s.cancelled && s.r.exec == Ended(true) && s.p.up == Stopped(true)
    ensures var s := trace[|steps|];
            && multiset(s.r.plan) == multiset(s.r.skipped) + multiset(s.r.produced) + multiset(s.r.failed)
            && s.r.base <= |s.w.log|
            && (forall t :: t in s.r.plan ==> TimesListed(s, t.path) == if t in s.r.failed then 0 else 1)
            && SkipTotal(Tail(s)) == |s.r.skipped|
            && (forall k :: 1 <= k < |Tail(s)| ==> Tail(s)[k].msg.skippedByCheck == 0)
  {
    var s := trace[|steps|];
    RunKeepsInv(c, trace, steps, |steps|);
    assert s.r.produced == s.p.flushed + [] + [] + [] == s.p.flushed;
    hide SkipEntries, TaskPaths, ListedPaths, Completions, SkipTotal;
    var e := SkipEntries(s.r.skipped) + Entries(s.r.produced, FromBatch);
    assert Completions(Tail(s)) == e + [] == e;
    CompletionPaths(s.r.skipped, s.r.produced);
    forall t | t in s.r.plan ensures TimesListed(s, t.path) == if t in s.r.failed then 0 else 1 {
      OnceEach(s.r.plan, s.r.skipped, s.r.produced, s.r.failed, t);
    }
  }

  /**
   What such an attempt writes as the next snapshot leaves, for the next tick,
   exactly the changed bundles it neither skipped nor produced: the failed ones
   and those outside the plan.
   */
  lemma CompletedAttemptLeavesOnlyTheRest(c: Config, trace: seq<State>, steps: seq<Step>)
    requires IsRun(c, trace, steps) && c.hip
    requires var s := trace[|steps|];
             (s.main.SaveWriting? || s.main.SaveRenaming?) && !s.cancelled && s.p.up == Stopped(true)
    ensures var s := trace[|steps|];
            var now := s.r.info.bundles;
            && DifferingNames(s.main.next.bundles, now) ==
               DifferingNames(Bundles(s.r.was), now) - Paths(s.r.produced) - Paths(s.r.skipped)
            && ChangedNames(s.main.next.bundles, now) == {} && RemovedNames(s.main.next.bundles, now) == {}
  {
    hide DifferingNames, ChangedNames, RemovedNames, NextSnapshot, Reported, PlanSplit, DistinctPaths;
    var s := trace[|steps|];
    RunKeepsInv(c, trace, steps, |steps|);
    assert s.r.produced == s.p.flushed + [] + [] + [] == s.p.flushed;
    NextTickSeesTheRemainder(s.r.info, s.r.was, ProcessedNames(s.r, s.p));
    assert ProcessedNames(s.r, s.p) == Paths(s.r.produced) + Paths(s.r.skipped);
  }

  /**
   Refinement.  However the uploader's steps interleave with the executor, the
   forwarder and the attempt, an uncancelled uploader that ends without an
   error has had exactly the COMMITs logged that the uploader as a program
   sends for the artefacts it received, and these are the artefacts produced.
   */
  lemma StepsCommitAsTheProgramDoes(c: Config, trace: seq<State>, steps: seq<Step>)
    requires IsRun(c, trace, steps) && c.hip
    requires var s := trace[|steps|]; !s.main.Idle? && !s.cancelled && s.p.up == Stopped(true)
    ensures var s := trace[|steps|];
            && s.r.base <= |s.w.log|
            && Steps.Messages(Tail(s)) == CommitsFor(s.r.skipped, AllBatches(c, s.p.seen))
            && Flatten(AllBatches(c, s.p.seen)) == s.p.seen && IsCut(c, AllBatches(c, s.p.seen))
            && TasksOf(s.p.seen) == s.r.produced
  {
    hide AllBatches, IsCut, CommitsFor, Steps.Messages, TasksOf, Reported, ExecOk;
    var s := trace[|steps|];
    Steps.RunKeepsInv(c, trace, steps, |steps|);
    BatchesFit(c, s.p.seen);
    assert s.r.produced == s.p.flushed + [] + [] + [] == s.p.flushed + [];
  }

  /** Without HIP an attempt works on exactly the planned tasks whose bundle is new or changed since the snapshot. */
  lemma Layer1WorksOnChanges(c: Config, s: State, info: Info, plan: seq<Task>, t: Task)
    requires !c.hip && MainEnabled(c, s, StartAttempt(info, plan))
    ensures var r := MainApply(c, s, StartAttempt(info, plan)).r;
            t in r.open <==> t in plan && t.path in DifferingNames(Bundles(r.was), info.bundles)
  {
    var r := MainApply(c, s, StartAttempt(info, plan)).r;
    var (was, now) := (Bundles(r.was), info.bundles);
    var changed := set n | n in now.Keys && !(n in was && was[n].crc == now[n].crc);
    FilterIff(plan, changed, t);
    assert t.path in changed <==> t.path in DifferingNames(was, now);
    assert r.open == multiset(Skipped(plan, changed));
  }
}
