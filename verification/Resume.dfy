/**
 What a crash costs: the incremental merge after every COMMIT, the crash in the
 middle of an attempt, and the final save that rebuilds the snapshot.
 */
module AttemptResume {
  import opened Common
  import opened Bytes
  import opened BundleDiff
  import opened Tasks
  import opened TaskPlan
  import opened CheckFiltering
  import opened Attempt

  /** Committed bundles can be found in the snapshot file after a crash. */
  ghost predicate Resumable(c: Codec, file: Option<seq<byte>>, info: Info, names: set<string>) {
    names * info.bundles.Keys != {} ==>
      match LoadBytes(c, file)
      case Loaded(i) => i.version == info.version && i.os == info.os
                        && forall n :: n in names && n in info.bundles ==> n in i.bundles && i.bundles[n] == info.bundles[n]
      case _ => false
  }

  lemma MergeMakesResumable(c: Codec, before: Option<seq<byte>>, after: Option<seq<byte>>, info: Info,
                            names: set<string>, batch: seq<Task>)
    requires Resumable(c, before, info, names)
    requires LoadBytes(c, after) == Loaded(Merged(LoadBytes(c, before), info.version, info.os, BatchDetails(info, batch)))
    ensures Resumable(c, after, info, names + Paths(batch))
  {
    var details := BatchDetails(info, batch);
    var merged := Merged(LoadBytes(c, before), info.version, info.os, details).bundles;
    forall n | n in names + Paths(batch) && n in info.bundles ensures n in merged && merged[n] == info.bundles[n] {
      if n in Paths(batch) {
        assert n in details;
      } else {
        assert n in names * info.bundles.Keys;
      }
    }
  }

  /** A batch with no bundle of the list leaves nothing to merge. */
  lemma NothingToMerge(c: Codec, file: Option<seq<byte>>, info: Info, names: set<string>, batch: seq<Task>)
    requires Resumable(c, file, info, names) && BatchDetails(info, batch) == map[]
    ensures Resumable(c, file, info, names + Paths(batch))
  {
    forall n | n in Paths(batch) ensures n !in info.bundles {
      assert n in info.bundles ==> n in BatchDetails(info, batch);
    }
    assert (names + Paths(batch)) * info.bundles.Keys == names * info.bundles.Keys;
  }

  // ---------------------------------------------------------------- invariant

  /** The retired bundles, and those of a batch that is merged but not yet retired. */
  function Merges(p: Pipe): set<string> { if p.up.Cleaning? then p.processed + Paths(p.batch) else p.processed }

  /** As long as no merge was given up, all of them can be found in the file. */
  ghost predicate FileOk(c: Config, s: State) {
    !s.p.mergeFailed ==> Resumable(c.codec, s.w.file, s.r.info, Merges(s.p))
  }

  /** A merge in progress is the merge of this batch into this file. */
  ghost predicate MergeOk(c: Config, s: State) {
    && (s.p.up.MergeWriting? || s.p.up.MergeRenaming? ==>
         s.p.up.next == Merged(LoadBytes(c.codec, s.w.file), s.r.info.version, s.r.info.os, BatchDetails(s.r.info, s.p.batch)))
    && (s.p.up.MergeRenaming? ==> s.w.tmp == Some(c.codec.encode(s.p.up.next)))
  }

  /** A COMMIT of this attempt lists, apart from skips, only retired bundles and the current batch. */
  ghost predicate Lists(e: Logged, names: set<string>) {
    forall j :: 0 <= j < |e.msg.completed| && e.msg.completed[j].source == FromBatch ==> e.msg.completed[j].path in names
  }

  ghost predicate LogOk(s: State) {
    && s.r.base <= |s.w.log|
    && forall k :: s.r.base <= k < |s.w.log| ==> Lists(s.w.log[k], s.p.processed + Paths(s.p.batch))
  }

  ghost predicate SaveOk(c: Config, s: State) {
    && (s.main.SaveWriting? || s.main.SaveRenaming? ==> s.main.next == NextSnapshotOf(s.r, s.p))
    && (s.main.SaveRenaming? ==> s.w.tmp == Some(c.codec.encode(s.main.next)))
  }

  ghost predicate Inv(c: Config, s: State) {
    && (s.main.Live? ==> FileOk(c, s) && MergeOk(c, s) && LogOk(s))
    && (!s.main.Idle? && (s.p.up == Stopped(true) || s.p.up.MetaCommitting?) ==> s.p.batch == [])
    && SaveOk(c, s)
  }

  lemma ExecKeeps(c: Config, s: State, e: ExecStep)
    requires Inv(c, s) && ExecEnabled(s, e)
    ensures Inv(c, ExecApply(s, e))
  {
    hide Resumable, Lists, LoadBytes, Merged, Paths, Keep, Skipped, Answered, NextSnapshotOf;
  }

  lemma ForwardKeeps(c: Config, s: State)
    requires Inv(c, s) && ForwardEnabled(s)
    ensures Inv(c, ForwardApply(s))
  {
    hide Resumable, Lists, LoadBytes, Merged, Paths, NextSnapshotOf;
  }

  lemma ListsMore(e: Logged, names: set<string>, more: set<string>)
    requires Lists(e, names) && names <= more
    ensures Lists(e, more)
  {
  }

  lemma LogGrows(s: State, t: State)
    requires LogOk(s) && t.w.log == s.w.log && t.r.base == s.r.base
    requires s.p.processed + Paths(s.p.batch) <= t.p.processed + Paths(t.p.batch)
    ensures LogOk(t)
  {
    hide Lists, Paths;
    forall k | t.r.base <= k < |t.w.log| ensures Lists(t.w.log[k], t.p.processed + Paths(t.p.batch)) {
      ListsMore(s.w.log[k], s.p.processed + Paths(s.p.batch), t.p.processed + Paths(t.p.batch));
    }
  }

  /** A batch COMMIT lists skips and its own batch. */
  lemma CommitLists(info: Info, first: bool, skipped: seq<Task>, batch: seq<Task>)
    ensures Lists(Logged(info, BatchCommit(first, skipped, batch)), Paths(batch))
    ensures Lists(Logged(info, MetaCommit(skipped)), {})
  {
    hide ByPath;
    var e := Logged(info, BatchCommit(first, skipped, batch)).msg.completed;
    forall j | 0 <= j < |e| && e[j].source == FromBatch ensures e[j].path in Paths(batch) {
      var i := j - (|e| - |batch|);
      assert batch[i] in batch;
    }
  }

  lemma ReceiveKeeps(c: Config, s: State, bytes: nat)
    requires Inv(c, s) && UpEnabled(c, s, Receive(bytes))
    ensures Inv(c, UpApply(c, s, Receive(bytes)))
  {
    hide Resumable, LogOk, Paths, ShouldFlush;
    PathsAppend(s.p.batch, [s.p.channel[0]]);
    LogGrows(s, UpApply(c, s, Receive(bytes)));
  }

  lemma QuietKeeps(c: Config, s: State, u: UpStep)
    requires Inv(c, s) && UpEnabled(c, s, u)
    requires u.StopReceiving? || u.UploadFails? || u.UploadDone? || u.CleanFails? || u.MergeLoad? || u.MergeTmpPartial?
             || u.MergeTmpWritten? || u.MergeGivesUp?
    ensures Inv(c, UpApply(c, s, u))
  {
    hide LogOk, Paths, Merged, LoadBytes, BatchDetails;
    LogGrows(s, UpApply(c, s, u));
    FewerNames(c.codec, s.w.file, s.r.info, s.p.processed, Merges(s.p));
  }

  lemma FewerNames(c: Codec, file: Option<seq<byte>>, info: Info, names: set<string>, more: set<string>)
    requires names <= more
    ensures Resumable(c, file, info, more) ==> Resumable(c, file, info, names)
  {
    if Resumable(c, file, info, more) && names * info.bundles.Keys != {} {
      var n :| n in names * info.bundles.Keys;
      assert n in more * info.bundles.Keys;
    }
  }

  lemma RenamedKeeps(c: Config, s: State)
    requires Faithful(c.codec) && Inv(c, s) && UpEnabled(c, s, MergeRenamed)
    ensures Inv(c, UpApply(c, s, MergeRenamed))
  {
    hide LogOk, Resumable, Paths, Merged, BatchDetails;
    var t := UpApply(c, s, MergeRenamed);
    LogGrows(s, t);
    if !s.p.mergeFailed {
      MergeMakesResumable(c.codec, s.w.file, t.w.file, s.r.info, s.p.processed, s.p.batch);
    }
  }

  lemma NewEntry(s: State, t: State, msg: CommitMsg, names: set<string>)
    requires LogOk(s) && t.w == Append(s.w, s.r.info, msg) && t.r == s.r
    requires t.p.processed == s.p.processed && t.p.batch == s.p.batch
    requires Lists(Logged(s.r.info, msg), names) && names <= Paths(s.p.batch)
    ensures LogOk(t)
  {
    hide Lists, Paths;
    ListsMore(Logged(s.r.info, msg), names, s.p.processed + Paths(s.p.batch));
  }

  lemma ReplyKeeps(c: Config, s: State, u: UpStep)
    requires Inv(c, s) && UpEnabled(c, s, u) && (u.BatchReply? || u.MetaReply?)
    ensures Inv(c, UpApply(c, s, u))
  {
    hide LogOk, Resumable, Paths, BatchCommit, MetaCommit, Lists;
    var t := UpApply(c, s, u);
    CommitLists(s.r.info, s.p.firstPending, s.r.skipped, s.p.batch);
    if t.w == s.w {
      LogGrows(s, t);
    } else if u.BatchReply? {
      NewEntry(s, t, BatchCommit(s.p.firstPending, s.r.skipped, s.p.batch), Paths(s.p.batch));
    } else {
      NewEntry(s, t, MetaCommit(s.r.skipped), {});
    }
  }

  lemma CleanDoneKeeps(c: Config, s: State)
    requires Inv(c, s) && UpEnabled(c, s, CleanDone)
    ensures Inv(c, UpApply(c, s, CleanDone))
  {
    hide LogOk, Resumable, Paths;
    LogGrows(s, UpApply(c, s, CleanDone));
  }

  lemma UpKeeps(c: Config, s: State, u: UpStep)
    requires Faithful(c.codec) && Inv(c, s) && UpEnabled(c, s, u)
    ensures Inv(c, UpApply(c, s, u))
  {
    hide Inv, UpApply;
    match u {
      case Receive(bytes) => ReceiveKeeps(c, s, bytes);
      case BatchReply(_) => ReplyKeeps(c, s, u);
      case MetaReply(_) => ReplyKeeps(c, s, u);
      case MergeRenamed => RenamedKeeps(c, s);
      case CleanDone => CleanDoneKeeps(c, s);
      case _ => QuietKeeps(c, s, u);
    }
  }

  lemma MainKeeps(c: Config, s: State, m: MainStep)
    requires Inv(c, s) && MainEnabled(c, s, m)
    ensures Inv(c, MainApply(c, s, m))
  {
    assert Resumable(c.codec, s.w.file, MainApply(c, s, m).r.info, {});
    hide Resumable, Lists, LoadBytes, Merged, Paths, NextSnapshotOf, TasksOk, DistinctPaths, Layer1Kept;
  }

  lemma StepKeepsInv(c: Config, s: State, step: Step)
    requires Faithful(c.codec) && Inv(c, s) && Enabled(c, s, step)
    ensures Inv(c, Apply(c, s, step))
  {
    hide UpApply, ExecApply, MainApply, ForwardApply, Resumable, Lists, Merged, LoadBytes, NextSnapshotOf;
    match step {
      case ExecDo(e) => ExecKeeps(c, s, e);
      case Forward => ForwardKeeps(c, s);
      case UpDo(u) => UpKeeps(c, s, u);
      case MainDo(m) => MainKeeps(c, s, m);
      case FireCancel =>
      case Crash =>
    }
  }

  lemma {:induction false} RunKeepsInv(c: Config, trace: seq<State>, steps: seq<Step>, n: nat)
    requires Faithful(c.codec) && IsRun(c, trace, steps) && n <= |steps|
    ensures Inv(c, trace[n])
  {
    if n > 0 {
      hide Inv, Apply, Enabled;
      RunKeepsInv(c, trace, steps, n - 1);
      StepKeepsInv(c, trace[n - 1], steps[n - 1]);
    }
  }

  // ---------------------------------------------------------------- what a crash costs

  /** A bundle that can be found in the file is no change for a diff of the same list. */
  lemma ResumableIsNoChange(c: Codec, file: Option<seq<byte>>, info: Info, names: set<string>, was: Option<Info>)
    requires Resumable(c, file, info, names)
    requires was == match LoadBytes(c, file) case Loaded(i) => Some(i) case _ => None
    ensures DifferingNames(Bundles(was), info.bundles) !! names
  {
    forall n | n in names ensures n !in DifferingNames(Bundles(was), info.bundles) {
      if n in info.bundles {
        assert n in names * info.bundles.Keys;
      }
    }
  }

  /**
   A crash at any point of an attempt loses at most the current batch: unless a
   merge was given up, the next attempt on the same list sees no retired bundle
   as changed, and of all bundles this attempt's COMMITs listed as uploaded it
   sees as changed at most those of the batch in progress, and none of these
   either once the batch is merged.
   */
  lemma CrashLosesOnlyTheLastBatch(c: Config, trace: seq<State>, steps: seq<Step>, n: nat, plan: seq<Task>)
    requires Faithful(c.codec) && IsRun(c, trace, steps) && n + 1 < |steps|
    requires trace[n].main.Live? && !trace[n].p.mergeFailed
    requires steps[n] == Crash && steps[n + 1] == MainDo(StartAttempt(trace[n].r.info, plan))
    ensures var s := trace[n];
            var again := DifferingNames(Bundles(trace[n + 2].r.was), s.r.info.bundles);
            && again !! s.p.processed
            && (s.p.up.Cleaning? ==> again !! Paths(s.p.batch))
            && s.r.base <= |s.w.log|
            && forall k, j :: s.r.base <= k < |s.w.log| && 0 <= j < |s.w.log[k].msg.completed|
                              && s.w.log[k].msg.completed[j].source == FromBatch
                              && s.w.log[k].msg.completed[j].path in again ==>
                                s.w.log[k].msg.completed[j].path in Paths(s.p.batch)
  {
    hide Resumable, Paths, DifferingNames;
    var s := trace[n];
    RunKeepsInv(c, trace, steps, n);
    assert trace[n + 1] == Apply(c, s, Crash) && trace[n + 2] == Apply(c, trace[n + 1], steps[n + 1]);
    ResumableIsNoChange(c.codec, s.w.file, s.r.info, Merges(s.p), trace[n + 2].r.was);
    assert forall k :: s.r.base <= k < |s.w.log| ==> Lists(s.w.log[k], s.p.processed + Paths(s.p.batch));
  }

  /** The bundle is unchanged since the snapshot the attempt started from. */
  predicate Same(r: Run, n: string) { n in Bundles(r.was) && n in r.info.bundles && Bundles(r.was)[n].crc == r.info.bundles[n].crc }

  /**
   The final save is where merged bundles can get lost.  It keeps a bundle that
   was retired, or is in the batch an error left behind, exactly if the
   uploader ended without an error or the bundle had not changed in the first
   place.
   */
  lemma FinalSaveKeepsIff(c: Config, trace: seq<State>, steps: seq<Step>, n: nat, name: string)
    requires Faithful(c.codec) && IsRun(c, trace, steps) && n < |steps| && steps[n] == MainDo(SaveRenamed)
    requires var s := trace[n]; name in s.p.processed + Paths(s.p.batch) && name in s.r.info.bundles
    ensures var s := trace[n];
            var saved := LoadBytes(c.codec, trace[n + 1].w.file);
            && saved == Loaded(NextSnapshotOf(s.r, s.p))
            && (name in saved.info.bundles <==> s.p.up == Stopped(true) || Same(s.r, name))
            && (name in saved.info.bundles ==> saved.info.bundles[name] == s.r.info.bundles[name])
  {
    assert Paths([]) == {};
    hide Paths;
    RunKeepsInv(c, trace, steps, n);
    assert trace[n + 1] == Apply(c, trace[n], steps[n]);
  }

  /** A merge that cannot be done is no error of the uploader: it goes on with the same batch, and only remembers. */
  lemma FailedMergeGoesOn(c: Config, s: State, u: UpStep)
    requires UpEnabled(c, s, u)
    requires u.MergeGivesUp? || (u.MergeLoad? && LoadBytes(c.codec, s.w.file).Unreadable?)
    ensures var t := UpApply(c, s, u);
            && t.p.up == Cleaning(s.p.up.last) && t.p.mergeFailed && t.p.batch == s.p.batch && t.p.processed == s.p.processed
            && t.w.file == s.w.file && t.w.log == s.w.log
  {
  }

  /** A cancelled uploader takes nothing more from the channel; it flushes what it holds, or sends the skip report if that is still due. */
  lemma CancelFlushesTheRest(c: Config, s: State, bytes: nat)
    requires s.main.Live? && s.cancelled && s.p.up.Receiving?
    ensures !UpEnabled(c, s, Receive(bytes)) && UpEnabled(c, s, StopReceiving)
    ensures UpApply(c, s, StopReceiving).p.up ==
            if s.p.batch != [] then Flushing(true) else if s.p.firstPending then MetaCommitting else Stopped(true)
  {
  }

  // ---------------------------------------------------------------- a run that loses a merged bundle

  lemma Extend(c: Config, trace: seq<State>, steps: seq<Step>, step: Step) returns (trace': seq<State>, steps': seq<Step>)
    requires IsRun(c, trace, steps) && Enabled(c, trace[|steps|], step)
    ensures IsRun(c, trace', steps') && trace' == trace + [Apply(c, trace[|steps|], step)] && steps' == steps + [step]
  {
    hide Apply, Enabled;
    trace', steps' := trace + [Apply(c, trace[|steps|], step)], steps + [step];
  }

  /** A list of one bundle, and its task. */
  function OneBundle(d: Detail): Info { Info(None, None, map["a" := d]) }

  function OneTask(c: Config, d: Detail): Task { Task("a", HashOf(c.rules, d), d.fileSize, 0) }

  /** The attempt on that list, at a given point of executor and uploader. */
  function OneRun(c: Config, d: Detail, exec: Exec, produced: seq<Task>): Run {
    Run(OneBundle(d), None, 0, [OneTask(c, d)], exec, [], multiset{}, [], produced, [])
  }

  lemma OneStarted(c: Config, d: Detail) returns (trace: seq<State>, steps: seq<Step>)
    requires c.hip
    ensures IsRun(c, trace, steps)
    ensures trace[|steps|] == State(World(None, None, [], {}),
                                    OneRun(c, d, Checking, []).(todo := [OneTask(c, d)]), FreshPipe(c), Live, false)
  {
    trace, steps := [State(World(None, None, [], {}), OneRun(c, d, Checking, []), FreshPipe(c), Idle, false)], [];
    trace, steps := Extend(c, trace, steps, MainDo(StartAttempt(OneBundle(d), [OneTask(c, d)])));
  }

  lemma OneChecked(c: Config, d: Detail) returns (trace: seq<State>, steps: seq<Step>)
    requires c.hip
    ensures IsRun(c, trace, steps)
    ensures trace[|steps|] == State(World(None, None, [], {}),
                                    OneRun(c, d, Checking, []).(open := multiset{OneTask(c, d)}), FreshPipe(c), Live, false)
  {
    hide FreshPipe;
    var t := OneTask(c, d);
    trace, steps := OneStarted(c, d);
    assert [t][..1] == [t] && [t][..0] == [];
    assert Keep([t], {}) == Keep([], {}) + [t] && Skipped([t], {}) == Skipped([], {}) == [];
    assert Answered(OneBundle(d), []) == {};
    trace, steps := Extend(c, trace, steps, ExecDo(CheckChunk(1, {})));
  }

  lemma OneProduced(c: Config, d: Detail) returns (trace: seq<State>, steps: seq<Step>)
    requires c.hip
    ensures IsRun(c, trace, steps)
    ensures trace[|steps|] == State(World(None, None, [], {}), OneRun(c, d, Running, [OneTask(c, d)]),
                                    FreshPipe(c).(channel := [OneTask(c, d)]), Live, false)
  {
    var t := OneTask(c, d);
    trace, steps := OneChecked(c, d);
    trace, steps := Extend(c, trace, steps, ExecDo(BeginWork));
    trace, steps := Extend(c, trace, steps, ExecDo(Produce(t)));
    trace, steps := Extend(c, trace, steps, Forward);
  }

  /** The uploader's pipe once the bundle is in its batch. */
  function OnePipe(c: Config, d: Detail, up: Up): Pipe {
    FreshPipe(c).(seen := [Art(OneTask(c, d), 0)], batch := [OneTask(c, d)], up := up)
  }

  function OneLogged(c: Config, d: Detail): Logged { Logged(OneBundle(d), BatchCommit(true, [], [OneTask(c, d)])) }

  lemma OneCommitted(c: Config, d: Detail, trace0: seq<State>, steps0: seq<Step>) returns (trace: seq<State>, steps: seq<Step>)
    requires c.batchBundles == 1 && c.hip && IsRun(c, trace0, steps0)
    requires trace0[|steps0|] == State(World(None, None, [], {}), OneRun(c, d, Running, [OneTask(c, d)]),
                                       FreshPipe(c).(channel := [OneTask(c, d)]), Live, false)
    ensures IsRun(c, trace, steps)
    ensures trace[|steps|] == State(World(None, None, [OneLogged(c, d)], {}), OneRun(c, d, Running, [OneTask(c, d)]),
                                    OnePipe(c, d, Merging(false)).(firstPending := false), Live, false)
  {
    hide BatchCommit;
    var t := OneTask(c, d);
    assert [] + [t] == [t] && [] + [Art(t, 0)] == [Art(t, 0)] && [] + [OneLogged(c, d)] == [OneLogged(c, d)];
    trace, steps := Extend(c, trace0, steps0, UpDo(Receive(0)));
    trace, steps := Extend(c, trace, steps, UpDo(UploadDone));
    trace, steps := Extend(c, trace, steps, UpDo(BatchReply(Acknowledged)));
  }

  lemma OneMerged(c: Config, d: Detail, trace0: seq<State>, steps0: seq<Step>) returns (trace: seq<State>, steps: seq<Step>)
    requires IsRun(c, trace0, steps0) && c.hip
    requires trace0[|steps0|] == State(World(None, None, [OneLogged(c, d)], {}), OneRun(c, d, Running, [OneTask(c, d)]),
                                       OnePipe(c, d, Merging(false)).(firstPending := false), Live, false)
    ensures IsRun(c, trace, steps)
    ensures trace[|steps|] == State(World(Some(c.codec.encode(OneBundle(d))), None, [OneLogged(c, d)], {}),
                                    OneRun(c, d, Running, [OneTask(c, d)]),
                                    OnePipe(c, d, Cleaning(false)).(firstPending := false), Live, false)
  {
    hide BatchCommit;
    var t := OneTask(c, d);
    assert Paths([t]) == {"a"};
    assert BatchDetails(OneBundle(d), [t]) == map["a" := d];
    trace, steps := Extend(c, trace0, steps0, UpDo(MergeLoad));
    trace, steps := Extend(c, trace, steps, UpDo(MergeTmpWritten));
    trace, steps := Extend(c, trace, steps, UpDo(MergeRenamed));
  }

  /** After a failed clean-up the attempt ends, and its save rebuilds from the snapshot it started with: none. */
  lemma OneLost(c: Config, d: Detail, trace0: seq<State>, steps0: seq<Step>) returns (trace: seq<State>, steps: seq<Step>)
    requires IsRun(c, trace0, steps0) && c.hip && Faithful(c.codec)
    requires trace0[|steps0|] == State(World(Some(c.codec.encode(OneBundle(d))), None, [OneLogged(c, d)], {}),
                                       OneRun(c, d, Running, [OneTask(c, d)]),
                                       OnePipe(c, d, Cleaning(false)).(firstPending := false), Live, false)
    ensures IsRun(c, trace, steps) && |steps| == |steps0| + 5 && trace[..|trace0|] == trace0 && steps[..|steps0|] == steps0
    ensures LoadBytes(c.codec, trace[|steps|].w.file) == Loaded(Info(None, None, map[]))
    ensures forall i :: |steps0| <= i < |steps| ==> !steps[i].Crash?
  {
    hide BatchCommit;
    trace, steps := Extend(c, trace0, steps0, UpDo(CleanFails));
    trace, steps := Extend(c, trace, steps, ExecDo(ExecEnd(true)));
    trace, steps := Extend(c, trace, steps, MainDo(JoinTasks));
    var next := trace[|steps|].main.next;
    assert next.bundles == map[];
    trace, steps := Extend(c, trace, steps, MainDo(SaveTmpWritten));
    trace, steps := Extend(c, trace, steps, MainDo(SaveRenamed));
    assert c.codec.decode(c.codec.encode(next)) == Some(next);
  }

  /**
   So the snapshot is not monotone: a bundle that was committed, acknowledged
   and merged into the file is dropped by the final save after an uploader
   error, without any crash.
   */
  lemma UploaderErrorDropsMergedBundle(c: Config, d: Detail) returns (trace: seq<State>, steps: seq<Step>, k: nat)
    requires c.batchBundles == 1 && c.hip && Faithful(c.codec)
    ensures IsRun(c, trace, steps) && k < |steps|
    ensures forall i :: k <= i < |steps| ==> !steps[i].Crash?
    ensures LoadBytes(c.codec, trace[k].w.file) == Loaded(OneBundle(d)) && trace[k].w.log == [OneLogged(c, d)]
    ensures LoadBytes(c.codec, trace[|steps|].w.file) == Loaded(Info(None, None, map[]))
  {
    hide BatchCommit, OneRun, OnePipe, FreshPipe;
    trace, steps := OneProduced(c, d);
    trace, steps := OneCommitted(c, d, trace, steps);
    trace, steps := OneMerged(c, d, trace, steps);
    k := |steps|;
    var merged := trace[k];
    assert c.codec.decode(c.codec.encode(OneBundle(d))) == Some(OneBundle(d));
    trace, steps := OneLost(c, d, trace, steps);
    assert trace[k] == merged;
  }
}
