/**
 One region attempt after another (`execute_once_attempt` and its tasks in
 src/service/poller.rs): the executor, the forwarder, the uploader and the
 attempt itself take turns in any order, the process may crash between any two
 steps, and files are written as a temporary sibling followed by a rename.
 Only the disk and the gateway survive a crash.

 Timeouts and I/O errors are steps that may or may not be taken.  The bundle
 list the executor fetches is taken to be the one the attempt fetched.
 */
module Attempt {
  import opened Common
  import opened Bytes
  import opened BundleDiff
  import opened Tasks
  import opened TaskPlan
  import opened CheckFiltering

  const CHANNEL_CAPACITY: nat := 32

  datatype Source = CheckSkip | FromBatch

  datatype Completion = Completion(path: string, fingerprint: string, source: Source)

  /** A COMMIT; `skippedByLayer1` is always zero while HIP is enabled and is left out. */
  datatype CommitMsg = CommitMsg(bundleCount: nat, skippedByCheck: nat, completed: seq<Completion>)

  /** A COMMIT the gateway applied, with the bundle list of the attempt that sent it. */
  datatype Logged = Logged(info: Info, msg: CommitMsg)

  datatype Config = Config(codec: Codec, rules: Rules, hip: bool, batchBundles: nat, batchBytes: nat)

  /** What outlives the process: the snapshot file, its temporary sibling, and the gateway's memory. */
  datatype World = World(file: Option<seq<byte>>, tmp: Option<seq<byte>>,
                         log: seq<Logged>, skipAnswers: set<(string, int)>)

  datatype Exec = Checking | Running | Ended(ok: bool)

  /** The attempt's inputs and the executor's progress through the planned tasks. */
  datatype Run = Run(info: Info, was: Option<Info>, base: nat, plan: seq<Task>,
                     exec: Exec, todo: seq<Task>, open: multiset<Task>,
                     skipped: seq<Task>, produced: seq<Task>, failed: seq<Task>)

  datatype Up =
    | Receiving
    | Flushing(last: bool)                  // connecting and uploading the batch
    | Committing(last: bool)                // uploads done, COMMIT not yet answered
    | Merging(last: bool)                   // COMMIT acknowledged
    | MergeWriting(last: bool, next: Info)
    | MergeRenaming(last: bool, next: Info)
    | Cleaning(last: bool)                  // local artefacts being removed
    | MetaCommitting                        // nothing uploaded: the skip report alone
    | Stopped(ok: bool)

  /** An artefact set of one bundle with the bytes its files measure. */
  datatype Art = Art(task: Task, bytes: nat)

  /**
   Artefacts between executor and gateway, and the uploader's own variables.
   `seen` and `flushed` are its history: what it took from the channel and what
   it retired; `mergeFailed` remembers a merge that was given up.
   */
  datatype Pipe = Pipe(progress: seq<Task>, channel: seq<Task>, batch: seq<Task>, bytes: nat,
                       seen: seq<Art>, flushed: seq<Task>, processed: set<string>, firstPending: bool,
                       mergeFailed: bool, up: Up)

  datatype Main = Idle | Live | SaveWriting(next: Info) | SaveRenaming(next: Info) | Finishing

  datatype State = State(w: World, r: Run, p: Pipe, main: Main, cancelled: bool)

  // ---------------------------------------------------------------- pure parts

  function Paths(ts: seq<Task>): set<string> { set t | t in ts :: t.path }

  lemma PathsAppend(a: seq<Task>, b: seq<Task>)
    ensures Paths(a + b) == Paths(a) + Paths(b)
  {
    forall n ensures n in Paths(a + b) <==> n in Paths(a) + Paths(b) {
      if n in Paths(a) {
        var t :| t in a && t.path == n;
        assert t in a + b;
      }
      if n in Paths(b) {
        var t :| t in b && t.path == n;
        assert t in a + b;
      }
    }
  }

  function Entries(ts: seq<Task>, source: Source): seq<Completion> {
    seq(|ts|, i requires 0 <= i < |ts| => Completion(ts[i].path, ts[i].hash, source))
  }

  /** Skipped bundles are reported sorted by path. */
  function ByPath(ts: seq<Task>): seq<Task> {
    SortTasks(seq(|ts|, i requires 0 <= i < |ts| => ts[i].(priority := 0)))
  }

  function SkipEntries(ts: seq<Task>): seq<Completion> { Entries(ByPath(ts), CheckSkip) }

  /** Either threshold triggers a flush; zero turns a threshold off. */
  predicate ShouldFlush(c: Config, batch: seq<Task>, bytes: nat) {
    (c.batchBundles > 0 && |batch| >= c.batchBundles) || (c.batchBytes > 0 && bytes >= c.batchBytes)
  }

  /** The COMMIT for a batch; only the first of an attempt carries the skip report. */
  function BatchCommit(first: bool, skipped: seq<Task>, batch: seq<Task>): CommitMsg {
    CommitMsg(|Paths(batch)|, if first then |skipped| else 0,
              (if first then SkipEntries(skipped) else []) + Entries(batch, FromBatch))
  }

  function MetaCommit(skipped: seq<Task>): CommitMsg { CommitMsg(0, |skipped|, SkipEntries(skipped)) }

  function BatchDetails(info: Info, batch: seq<Task>): map<string, Detail> {
    map n | n in Paths(batch) && n in info.bundles :: info.bundles[n]
  }

  /** Names that count as processed at the end: none after an uploader error. */
  function ProcessedNames(r: Run, p: Pipe): set<string> {
    if p.up == Stopped(true) then p.processed + Paths(r.skipped) else {}
  }

  // ---------------------------------------------------------------- steps

  datatype ExecStep =
    | CheckChunk(n: nat, skip: set<string>)
    | BeginWork
    | Produce(t: Task)
    | FailTask(t: Task)
    | ExecEnd(ok: bool)

  datatype Reply = Acknowledged | AppliedButLost | Rejected

  datatype UpStep =
    | Receive(bytes: nat)
    | StopReceiving
    | UploadFails
    | UploadDone
    | BatchReply(reply: Reply)
    | MergeLoad
    | MergeTmpPartial(part: seq<byte>)
    | MergeTmpWritten
    | MergeRenamed
    | MergeGivesUp(leftover: Option<seq<byte>>)
    | CleanDone
    | CleanFails
    | MetaReply(reply: Reply)

  datatype MainStep =
    | StartAttempt(info: Info, plan: seq<Task>)
    | JoinTasks
    | SaveTmpPartial(part: seq<byte>)
    | SaveTmpWritten
    | SaveRenamed
    | SaveGivesUp(leftover: Option<seq<byte>>)
    | FinishAttempt

  datatype Step = ExecDo(e: ExecStep) | Forward | UpDo(u: UpStep) | MainDo(m: MainStep) | FireCancel | Crash

  predicate TaskOk(c: Config, info: Info, t: Task) {
    t.path in info.bundles && t.hash == HashOf(c.rules, info.bundles[t.path])
  }

  predicate TasksOk(c: Config, info: Info, ts: seq<Task>) {
    forall i :: 0 <= i < |ts| ==> TaskOk(c, info, ts[i])
  }

  predicate ExecEnabled(s: State, e: ExecStep) {
    && s.main.Live?
    && match e
       case CheckChunk(n, _) => s.r.exec.Checking? && 1 <= n <= |s.r.todo|
       case BeginWork => s.r.exec.Checking? && s.r.todo == []
       case Produce(t) => s.r.exec.Running? && t in s.r.open
       case FailTask(t) => s.r.exec.Running? && t in s.r.open
       case ExecEnd(ok) => !s.r.exec.Ended? && (ok ==> s.r.exec.Running? && s.r.open == multiset{})
  }

  predicate ForwardEnabled(s: State) {
    s.main.Live? && s.p.progress != [] && (s.p.up.Stopped? || |s.p.channel| < CHANNEL_CAPACITY)
  }

  /** Executor gone, forwarder drained: the channel's senders are dropped. */
  predicate ChannelClosed(s: State) { s.r.exec.Ended? && s.p.progress == [] && s.p.channel == [] }

  predicate UpEnabled(c: Config, s: State, u: UpStep) {
    && s.main.Live?
    && match u
       case Receive(_) => s.p.up.Receiving? && !s.cancelled && s.p.channel != []
       case StopReceiving => s.p.up.Receiving? && (s.cancelled || ChannelClosed(s))
       case UploadFails => s.p.up.Flushing?
       case UploadDone => s.p.up.Flushing?
       case BatchReply(_) => s.p.up.Committing?
       case MergeLoad => s.p.up.Merging?
       case MergeTmpPartial(_) => s.p.up.MergeWriting?
       case MergeTmpWritten => s.p.up.MergeWriting?
       case MergeRenamed => s.p.up.MergeRenaming?
       case MergeGivesUp(_) => s.p.up.MergeWriting? || s.p.up.MergeRenaming?
       case CleanDone => s.p.up.Cleaning?
       case CleanFails => s.p.up.Cleaning?
       case MetaReply(_) => s.p.up.MetaCommitting?
  }

  predicate MainEnabled(c: Config, s: State, m: MainStep) {
    match m
    case StartAttempt(info, plan) =>
      s.main.Idle? && !LoadBytes(c.codec, s.w.file).Unreadable? && TasksOk(c, info, plan)
      && DistinctPaths(plan)
    case JoinTasks => s.main.Live? && s.r.exec.Ended? && s.p.progress == [] && s.p.up.Stopped?
    case SaveTmpPartial(_) => s.main.SaveWriting?
    case SaveTmpWritten => s.main.SaveWriting?
    case SaveRenamed => s.main.SaveRenaming?
    case SaveGivesUp(_) => s.main.SaveWriting? || s.main.SaveRenaming?
    case FinishAttempt => s.main.Finishing?
  }

  predicate Enabled(c: Config, s: State, step: Step) {
    match step
    case ExecDo(e) => ExecEnabled(s, e)
    case Forward => ForwardEnabled(s)
    case UpDo(u) => UpEnabled(c, s, u)
    case MainDo(m) => MainEnabled(c, s, m)
    case FireCancel => true
    case Crash => true
  }

  function ExecApply(s: State, e: ExecStep): State
    requires ExecEnabled(s, e)
  {
    match e
    case CheckChunk(n, skip) =>
      var hits := Skipped(s.r.todo[..n], skip);
      s.(r := s.r.(todo := s.r.todo[n..], skipped := s.r.skipped + hits,
                   open := s.r.open + multiset(Keep(s.r.todo[..n], skip))),
         w := s.w.(skipAnswers := s.w.skipAnswers + Answered(s.r.info, hits)))
    case BeginWork => s.(r := s.r.(exec := Running))
    case Produce(t) =>
      s.(r := s.r.(open := s.r.open - multiset{t}, produced := s.r.produced + [t]),
         p := s.p.(progress := s.p.progress + [t]))
    case FailTask(t) => s.(r := s.r.(open := s.r.open - multiset{t}, failed := s.r.failed + [t]))
    case ExecEnd(ok) => s.(r := s.r.(exec := Ended(ok)))
  }

  /** The (name, checksum) pairs the gateway answered SKIP for. */
  function Answered(info: Info, ts: seq<Task>): set<(string, int)> {
    set t | t in ts && t.path in info.bundles :: (t.path, info.bundles[t.path].crc)
  }

  /** A send to a dropped receiver loses the artefact and nothing else. */
  function ForwardApply(s: State): State
    requires ForwardEnabled(s)
  {
    s.(p := s.p.(progress := s.p.progress[1..],
                 channel := if s.p.up.Stopped? then s.p.channel else s.p.channel + [s.p.progress[0]]))
  }

  function Append(w: World, info: Info, msg: CommitMsg): World { w.(log := w.log + [Logged(info, msg)]) }

  function UpApply(c: Config, s: State, u: UpStep): State
    requires UpEnabled(c, s, u)
  {
    match u
    case Receive(bytes) =>
      var batch, total := s.p.batch + [s.p.channel[0]], s.p.bytes + bytes;
      s.(p := s.p.(channel := s.p.channel[1..], seen := s.p.seen + [Art(s.p.channel[0], bytes)],
                   batch := batch, bytes := total,
                   up := if ShouldFlush(c, batch, total) then Flushing(false) else Receiving))
    case StopReceiving =>
      s.(p := s.p.(up := if s.p.batch != [] then Flushing(true)
                         else if s.p.firstPending then MetaCommitting else Stopped(true)))
    case UploadFails => s.(p := s.p.(up := Stopped(false)))
    case UploadDone => s.(p := s.p.(up := Committing(s.p.up.last)))
    case BatchReply(reply) =>
      var msg := BatchCommit(s.p.firstPending, s.r.skipped, s.p.batch);
      var p := s.p.(firstPending := false);
      (match reply
       case Acknowledged => s.(w := Append(s.w, s.r.info, msg), p := p.(up := Merging(s.p.up.last)))
       case AppliedButLost => s.(w := Append(s.w, s.r.info, msg), p := p.(up := Stopped(false)))
       case Rejected => s.(p := p.(up := Stopped(false))))
    case MergeLoad =>
      var existing := LoadBytes(c.codec, s.w.file);
      if existing.Unreadable? then s.(p := s.p.(mergeFailed := true, up := Cleaning(s.p.up.last))) else
      s.(p := s.p.(up := MergeWriting(s.p.up.last, Merged(existing, s.r.info.version, s.r.info.os,
                                                          BatchDetails(s.r.info, s.p.batch)))))
    case MergeTmpPartial(bytes) => s.(w := s.w.(tmp := Some(bytes)))
    case MergeTmpWritten =>
      s.(w := s.w.(tmp := Some(c.codec.encode(s.p.up.next))), p := s.p.(up := MergeRenaming(s.p.up.last, s.p.up.next)))
    case MergeRenamed =>
      s.(w := s.w.(file := s.w.tmp, tmp := None), p := s.p.(up := Cleaning(s.p.up.last)))
    case MergeGivesUp(leftover) =>
      s.(w := s.w.(tmp := leftover), p := s.p.(mergeFailed := true, up := Cleaning(s.p.up.last)))
    case CleanDone =>
      s.(p := s.p.(processed := s.p.processed + Paths(s.p.batch), flushed := s.p.flushed + s.p.batch,
                   batch := [], bytes := 0, up := if s.p.up.last then Stopped(true) else Receiving))
    case CleanFails => s.(p := s.p.(up := Stopped(false)))
    case MetaReply(reply) =>
      var p := s.p.(firstPending := false);
      if s.r.skipped == [] then s.(p := p.(up := Stopped(true))) else
      (match reply
       case Acknowledged => s.(w := Append(s.w, s.r.info, MetaCommit(s.r.skipped)), p := p.(up := Stopped(true)))
       case AppliedButLost => s.(w := Append(s.w, s.r.info, MetaCommit(s.r.skipped)), p := p.(up := Stopped(false)))
       case Rejected => s.(p := p.(up := Stopped(false))))
  }

  /** Without HIP the layer-1 diff decides what to process and there is no uploader. */
  function Layer1Kept(was: map<string, Detail>, now: map<string, Detail>, plan: seq<Task>): seq<Task> {
    Skipped(plan, set n | n in now.Keys && !(n in was && was[n].crc == now[n].crc))
  }

  function FreshRun(c: Config, w: World, info: Info, plan: seq<Task>): Run {
    var was := match LoadBytes(c.codec, w.file) case Loaded(i) => Some(i) case _ => None;
    if c.hip then Run(info, was, |w.log|, plan, Checking, plan, multiset{}, [], [], [])
    else Run(info, was, |w.log|, plan, Running, [], multiset(Layer1Kept(Bundles(was), info.bundles, plan)), [], [], [])
  }

  function FreshPipe(c: Config): Pipe {
    Pipe([], [], [], 0, [], [], {}, true, false, if c.hip then Receiving else Stopped(true))
  }

  function MainApply(c: Config, s: State, m: MainStep): State
    requires MainEnabled(c, s, m)
  {
    match m
    case StartAttempt(info, plan) => s.(r := FreshRun(c, s.w, info, plan), p := FreshPipe(c), main := Live)
    case JoinTasks => s.(main := SaveWriting(NextSnapshotOf(s.r, s.p)))
    case SaveTmpPartial(bytes) => s.(w := s.w.(tmp := Some(bytes)))
    case SaveTmpWritten => s.(w := s.w.(tmp := Some(c.codec.encode(s.main.next))), main := SaveRenaming(s.main.next))
    case SaveRenamed => s.(w := s.w.(file := s.w.tmp, tmp := None), main := Finishing)
    case SaveGivesUp(leftover) => s.(w := s.w.(tmp := leftover), main := Finishing)
    case FinishAttempt => s.(main := Idle)
  }

  /** `build_next_snapshot` on what the attempt ended with. */
  function NextSnapshotOf(r: Run, p: Pipe): Info { NextSnapshot(r.info, r.was, ProcessedNames(r, p)) }

  function Apply(c: Config, s: State, step: Step): State
    requires Enabled(c, s, step)
  {
    match step
    case ExecDo(e) => ExecApply(s, e)
    case Forward => ForwardApply(s)
    case UpDo(u) => UpApply(c, s, u)
    case MainDo(m) => MainApply(c, s, m)
    case FireCancel => s.(cancelled := true)
    case Crash => s.(main := Idle, cancelled := false)
  }

  ghost predicate IsRun(c: Config, trace: seq<State>, steps: seq<Step>) {
    && |trace| == |steps| + 1
    && trace[0].main.Idle? && !LoadBytes(c.codec, trace[0].w.file).Unreadable?
    && forall i :: 0 <= i < |steps| ==> Enabled(c, trace[i], steps[i]) && trace[i + 1] == Apply(c, trace[i], steps[i])
  }

  /** The bundles of the snapshot a run starts from. */
  ghost function InitialBundles(c: Config, w: World): map<string, Detail> {
    match LoadBytes(c.codec, w.file) case Loaded(i) => i.bundles case _ => map[]
  }
}

/** Every entry of the on-disk snapshot has its reason: the invariant and its steps. */
module AttemptSafety {
  import opened Common
  import opened Bytes
  import opened BundleDiff
  import opened Tasks
  import opened TaskPlan
  import opened CheckFiltering
  import opened Attempt

  /** The COMMIT lists this bundle, with the fingerprint of a detail that has this checksum. */
  ghost predicate Lists(c: Config, e: Logged, n: string, crc: int) {
    && n in e.info.bundles && e.info.bundles[n].crc == crc
    && exists j :: 0 <= j < |e.msg.completed| && e.msg.completed[j].path == n
                   && e.msg.completed[j].fingerprint == HashOf(c.rules, e.info.bundles[n])
  }

  ghost predicate Committed(c: Config, log: seq<Logged>, n: string, crc: int) {
    exists k :: 0 <= k < |log| && Lists(c, log[k], n, crc)
  }

  /**
   Why a bundle may be in the snapshot: it was there at the start, a COMMIT the
   gateway applied listed it, or the gateway answered SKIP for it.
   */
  ghost predicate Known(c: Config, init: map<string, Detail>, w: World, n: string, crc: int) {
    || (n in init && init[n].crc == crc)
    || Committed(c, w.log, n, crc)
    || (n, crc) in w.skipAnswers
  }

  ghost predicate AllKnown(c: Config, init: map<string, Detail>, w: World, bundles: map<string, Detail>) {
    forall n :: n in bundles ==> Known(c, init, w, n, bundles[n].crc)
  }

  ghost predicate NamesKnown(c: Config, init: map<string, Detail>, w: World, info: Info, names: set<string>) {
    forall n :: n in names && n in info.bundles ==> Known(c, init, w, n, info.bundles[n].crc)
  }

  ghost predicate DiskOk(c: Config, init: map<string, Detail>, w: World) {
    match LoadBytes(c.codec, w.file)
    case Absent => true
    case Loaded(i) => AllKnown(c, init, w, i.bundles)
    case Unreadable => false
  }

  ghost predicate RunOk(c: Config, init: map<string, Detail>, w: World, r: Run) {
    && AllKnown(c, init, w, Bundles(r.was))
    && TasksOk(c, r.info, r.todo)
    && (forall t :: t in r.open ==> TaskOk(c, r.info, t))
    && NamesKnown(c, init, w, r.info, Paths(r.skipped))
  }

  ghost predicate PipeOk(c: Config, init: map<string, Detail>, w: World, info: Info, p: Pipe) {
    && TasksOk(c, info, p.progress)
    && TasksOk(c, info, p.channel)
    && TasksOk(c, info, p.batch)
    && NamesKnown(c, init, w, info, p.processed)
    && UpOk(c, init, w, info, p)
  }

  ghost predicate UpOk(c: Config, init: map<string, Detail>, w: World, info: Info, p: Pipe) {
    && (p.up.Merging? || p.up.MergeWriting? || p.up.MergeRenaming? || p.up.Cleaning? ==>
         NamesKnown(c, init, w, info, Paths(p.batch)))
    && (p.up.MergeWriting? || p.up.MergeRenaming? ==> AllKnown(c, init, w, p.up.next.bundles))
    && (p.up.MergeRenaming? ==> w.tmp == Some(c.codec.encode(p.up.next)))
  }

  ghost predicate MainOk(c: Config, init: map<string, Detail>, w: World, p: Pipe, main: Main) {
    && (main.SaveWriting? || main.SaveRenaming? ==> p.up.Stopped? && AllKnown(c, init, w, main.next.bundles))
    && (main.SaveRenaming? ==> w.tmp == Some(c.codec.encode(main.next)))
  }

  ghost predicate Inv(c: Config, init: map<string, Detail>, s: State) {
    && DiskOk(c, init, s.w)
    && (!s.main.Idle? ==> RunOk(c, init, s.w, s.r) && PipeOk(c, init, s.w, s.r.info, s.p) && MainOk(c, init, s.w, s.p, s.main))
  }

  // Reasons never expire.

  ghost predicate Grows(w: World, w': World) { w.log <= w'.log && w.skipAnswers <= w'.skipAnswers }

  lemma KnownGrows(c: Config, init: map<string, Detail>, w: World, w': World, n: string, crc: int)
    requires Grows(w, w') && Known(c, init, w, n, crc)
    ensures Known(c, init, w', n, crc)
  {
    if Committed(c, w.log, n, crc) {
      var k :| 0 <= k < |w.log| && Lists(c, w.log[k], n, crc);
      assert w'.log[k] == w.log[k];
    }
  }

  lemma AllKnownGrows(c: Config, init: map<string, Detail>, w: World, w': World, bundles: map<string, Detail>)
    requires Grows(w, w') && AllKnown(c, init, w, bundles)
    ensures AllKnown(c, init, w', bundles)
  {
    hide Known;
    forall n | n in bundles ensures Known(c, init, w', n, bundles[n].crc) {
      KnownGrows(c, init, w, w', n, bundles[n].crc);
    }
  }

  lemma NamesKnownGrows(c: Config, init: map<string, Detail>, w: World, w': World, info: Info, names: set<string>)
    requires Grows(w, w') && NamesKnown(c, init, w, info, names)
    ensures NamesKnown(c, init, w', info, names)
  {
    hide Known;
    forall n | n in names && n in info.bundles ensures Known(c, init, w', n, info.bundles[n].crc) {
      KnownGrows(c, init, w, w', n, info.bundles[n].crc);
    }
  }

  lemma DiskGrows(c: Config, init: map<string, Detail>, w: World, w': World)
    requires Grows(w, w') && w'.file == w.file && DiskOk(c, init, w)
    ensures DiskOk(c, init, w')
  {
    hide AllKnown;
    var loaded := LoadBytes(c.codec, w.file);
    if loaded.Loaded? {
      AllKnownGrows(c, init, w, w', loaded.info.bundles);
    }
  }

  lemma RunGrows(c: Config, init: map<string, Detail>, w: World, w': World, r: Run)
    requires Grows(w, w') && RunOk(c, init, w, r)
    ensures RunOk(c, init, w', r)
  {
    hide AllKnown, NamesKnown;
    AllKnownGrows(c, init, w, w', Bundles(r.was));
    NamesKnownGrows(c, init, w, w', r.info, Paths(r.skipped));
  }

  lemma PipeGrows(c: Config, init: map<string, Detail>, w: World, w': World, info: Info, p: Pipe)
    requires Grows(w, w') && w'.tmp == w.tmp && PipeOk(c, init, w, info, p)
    ensures PipeOk(c, init, w', info, p)
  {
    hide AllKnown, NamesKnown, TasksOk;
    NamesKnownGrows(c, init, w, w', info, p.processed);
    if p.up.Merging? || p.up.MergeWriting? || p.up.MergeRenaming? || p.up.Cleaning? {
      NamesKnownGrows(c, init, w, w', info, Paths(p.batch));
    }
    if p.up.MergeWriting? || p.up.MergeRenaming? {
      AllKnownGrows(c, init, w, w', p.up.next.bundles);
    }
  }

  // Where new reasons come from.

  lemma AnsweredAreKnown(c: Config, init: map<string, Detail>, w: World, info: Info, ts: seq<Task>)
    requires Answered(info, ts) <= w.skipAnswers
    ensures NamesKnown(c, init, w, info, Paths(ts))
  {
    forall n | n in Paths(ts) && n in info.bundles ensures Known(c, init, w, n, info.bundles[n].crc) {
      var t :| t in ts && t.path == n;
      assert (n, info.bundles[n].crc) in Answered(info, ts);
    }
  }

  lemma BatchIsCommitted(c: Config, init: map<string, Detail>, w: World, info: Info, first: bool, skipped: seq<Task>, batch: seq<Task>)
    requires TasksOk(c, info, batch)
    ensures NamesKnown(c, init, Append(w, info, BatchCommit(first, skipped, batch)), info, Paths(batch))
  {
    hide SkipEntries, Known;
    var msg := BatchCommit(first, skipped, batch);
    var w' := Append(w, info, msg);
    var shift := |msg.completed| - |batch|;
    forall n | n in Paths(batch) && n in info.bundles ensures Known(c, init, w', n, info.bundles[n].crc) {
      var i :| 0 <= i < |batch| && batch[i].path == n;
      assert msg.completed[shift + i] == Completion(n, batch[i].hash, FromBatch);
      assert Lists(c, w'.log[|w.log|], n, info.bundles[n].crc);
      CommittedIsKnown(c, init, w', n, info.bundles[n].crc);
    }
  }

  lemma CommittedIsKnown(c: Config, init: map<string, Detail>, w: World, n: string, crc: int)
    requires Committed(c, w.log, n, crc)
    ensures Known(c, init, w, n, crc)
  {
  }

  lemma MergedIsKnown(c: Config, init: map<string, Detail>, w: World, info: Info, batch: seq<Task>)
    requires DiskOk(c, init, w) && NamesKnown(c, init, w, info, Paths(batch))
    ensures AllKnown(c, init, w, Merged(LoadBytes(c.codec, w.file), info.version, info.os, BatchDetails(info, batch)).bundles)
  {
    hide Known;
    var details := BatchDetails(info, batch);
    assert forall n :: n in details ==> n in Paths(batch) && n in info.bundles && details[n] == info.bundles[n];
  }

  lemma NextIsKnown(c: Config, init: map<string, Detail>, s: State)
    requires RunOk(c, init, s.w, s.r) && PipeOk(c, init, s.w, s.r.info, s.p)
    ensures AllKnown(c, init, s.w, NextSnapshotOf(s.r, s.p).bundles)
  {
    hide Known, TasksOk, Paths;
    var next := NextSnapshotOf(s.r, s.p).bundles;
    forall n | n in next ensures Known(c, init, s.w, n, next[n].crc) {
      assert next[n] == s.r.info.bundles[n];
    }
  }

  // Filtering and dequeuing keep tasks well-formed.

  lemma {:induction false} FilterOk(c: Config, info: Info, ts: seq<Task>, skip: set<string>)
    requires TasksOk(c, info, ts)
    ensures TasksOk(c, info, Keep(ts, skip)) && TasksOk(c, info, Skipped(ts, skip))
  {
    if ts != [] {
      FilterOk(c, info, ts[..|ts| - 1], skip);
    }
  }

  lemma NamesKnownUnion(c: Config, init: map<string, Detail>, w: World, info: Info, a: set<string>, b: set<string>)
    requires NamesKnown(c, init, w, info, a) && NamesKnown(c, init, w, info, b)
    ensures NamesKnown(c, init, w, info, a + b)
  {
    hide Known;
  }

  // ---------------------------------------------------------------- steps

  lemma CheckChunkKeeps(c: Config, init: map<string, Detail>, s: State, n: nat, skip: set<string>)
    requires Inv(c, init, s) && ExecEnabled(s, CheckChunk(n, skip))
    ensures Inv(c, init, ExecApply(s, CheckChunk(n, skip)))
  {
    hide AllKnown, NamesKnown, DiskOk, PipeOk, Paths, Keep, Skipped, Answered;
    var t := ExecApply(s, CheckChunk(n, skip));
    DiskGrows(c, init, s.w, t.w);
    RunGrows(c, init, s.w, t.w, s.r);
    PipeGrows(c, init, s.w, t.w, s.r.info, s.p);
    var chunk := s.r.todo[..n];
    FilterOk(c, s.r.info, chunk, skip);
    AnsweredAreKnown(c, init, t.w, s.r.info, Skipped(chunk, skip));
    PathsAppend(s.r.skipped, Skipped(chunk, skip));
    NamesKnownUnion(c, init, t.w, s.r.info, Paths(s.r.skipped), Paths(Skipped(chunk, skip)));
    OpenOk(c, s.r.info, s.r.open, Keep(chunk, skip));
  }

  lemma OpenOk(c: Config, info: Info, open: multiset<Task>, kept: seq<Task>)
    requires (forall t :: t in open ==> TaskOk(c, info, t)) && TasksOk(c, info, kept)
    ensures forall t :: t in open + multiset(kept) ==> TaskOk(c, info, t)
  {
    forall t | t in open + multiset(kept) ensures TaskOk(c, info, t) {
      if t in multiset(kept) {
        assert t in kept;
      }
    }
  }

  lemma ExecKeeps(c: Config, init: map<string, Detail>, s: State, e: ExecStep)
    requires Inv(c, init, s) && ExecEnabled(s, e)
    ensures Inv(c, init, ExecApply(s, e))
  {
    if e.CheckChunk? {
      CheckChunkKeeps(c, init, s, e.n, e.skip);
    } else {
      hide AllKnown, NamesKnown, DiskOk, UpOk, Paths;
      assert ExecApply(s, e).p.progress == s.p.progress || e.Produce?;
    }
  }

  lemma ForwardKeeps(c: Config, init: map<string, Detail>, s: State)
    requires Inv(c, init, s) && ForwardEnabled(s)
    ensures Inv(c, init, ForwardApply(s))
  {
    hide AllKnown, NamesKnown, DiskOk, RunOk, Paths;
  }

  lemma CommitKeeps(c: Config, init: map<string, Detail>, s: State, reply: Reply)
    requires Inv(c, init, s) && UpEnabled(c, s, BatchReply(reply))
    ensures Inv(c, init, UpApply(c, s, BatchReply(reply)))
  {
    hide AllKnown, NamesKnown, DiskOk, RunOk, Paths, BatchCommit, TasksOk;
    var t := UpApply(c, s, BatchReply(reply));
    DiskGrows(c, init, s.w, t.w);
    RunGrows(c, init, s.w, t.w, s.r);
    PipeGrows(c, init, s.w, t.w, s.r.info, s.p);
    BatchIsCommitted(c, init, s.w, s.r.info, s.p.firstPending, s.r.skipped, s.p.batch);
  }

  lemma MetaKeeps(c: Config, init: map<string, Detail>, s: State, reply: Reply)
    requires Inv(c, init, s) && UpEnabled(c, s, MetaReply(reply))
    ensures Inv(c, init, UpApply(c, s, MetaReply(reply)))
  {
    hide AllKnown, NamesKnown, DiskOk, RunOk, Paths, MetaCommit, TasksOk;
    var t := UpApply(c, s, MetaReply(reply));
    DiskGrows(c, init, s.w, t.w);
    RunGrows(c, init, s.w, t.w, s.r);
    PipeGrows(c, init, s.w, t.w, s.r.info, s.p);
  }

  lemma MergeLoadKeeps(c: Config, init: map<string, Detail>, s: State)
    requires Inv(c, init, s) && UpEnabled(c, s, MergeLoad)
    ensures Inv(c, init, UpApply(c, s, MergeLoad))
  {
    hide AllKnown, NamesKnown, RunOk, Paths, Merged, BatchDetails, TasksOk;
    MergedIsKnown(c, init, s.w, s.r.info, s.p.batch);
  }

  /** Writing the temporary sibling, in whole or in part, touches nothing that is read back. */
  lemma TmpIsInvisible(c: Config, init: map<string, Detail>, w: World, tmp: Option<seq<byte>>, r: Run, p: Pipe)
    requires DiskOk(c, init, w) && RunOk(c, init, w, r) && PipeOk(c, init, w, r.info, p)
    requires !p.up.MergeRenaming?
    ensures var w' := w.(tmp := tmp);
            DiskOk(c, init, w') && RunOk(c, init, w', r) && PipeOk(c, init, w', r.info, p)
  {
    hide AllKnown, NamesKnown, Paths, TasksOk;
    var w' := w.(tmp := tmp);
    DiskGrows(c, init, w, w');
    RunGrows(c, init, w, w', r);
    NamesKnownGrows(c, init, w, w', r.info, p.processed);
    if p.up.Merging? || p.up.MergeWriting? || p.up.Cleaning? {
      NamesKnownGrows(c, init, w, w', r.info, Paths(p.batch));
    }
    if p.up.MergeWriting? {
      AllKnownGrows(c, init, w, w', p.up.next.bundles);
    }
  }

  /** A rename puts a whole encoded snapshot in place. */
  lemma RenameOk(c: Config, init: map<string, Detail>, w: World, next: Info)
    requires Faithful(c.codec) && w.tmp == Some(c.codec.encode(next)) && AllKnown(c, init, w, next.bundles)
    ensures DiskOk(c, init, w.(file := w.tmp, tmp := None))
  {
    hide AllKnown;
    AllKnownGrows(c, init, w, w.(file := w.tmp, tmp := None), next.bundles);
  }

  lemma MergeFileKeeps(c: Config, init: map<string, Detail>, s: State, u: UpStep)
    requires Faithful(c.codec) && Inv(c, init, s) && UpEnabled(c, s, u)
    requires u.MergeTmpPartial? || u.MergeTmpWritten? || u.MergeRenamed? || u.MergeGivesUp?
    ensures Inv(c, init, UpApply(c, s, u))
  {
    hide AllKnown, NamesKnown, DiskOk, RunOk, Paths, TasksOk;
    var t := UpApply(c, s, u);
    var cleaning := s.p.(up := Cleaning(s.p.up.last));
    if u.MergeRenamed? {
      RenameOk(c, init, s.w, s.p.up.next);
      RunGrows(c, init, s.w, t.w, s.r);
      NamesKnownGrows(c, init, s.w, t.w, s.r.info, s.p.processed);
      NamesKnownGrows(c, init, s.w, t.w, s.r.info, Paths(s.p.batch));
    } else if u.MergeGivesUp? {
      TmpIsInvisible(c, init, s.w, u.leftover, s.r, cleaning);
    } else {
      var writing := s.p.(up := MergeWriting(s.p.up.last, s.p.up.next));
      TmpIsInvisible(c, init, s.w, t.w.tmp, s.r, writing);
    }
  }

  lemma QuietUpKeeps(c: Config, init: map<string, Detail>, s: State, u: UpStep)
    requires Inv(c, init, s) && UpEnabled(c, s, u)
    requires u.Receive? || u.StopReceiving? || u.UploadFails? || u.UploadDone? || u.CleanFails?
    ensures Inv(c, init, UpApply(c, s, u))
  {
    hide AllKnown, NamesKnown, DiskOk, RunOk, Paths, ShouldFlush;
  }

  lemma CleanDoneKeeps(c: Config, init: map<string, Detail>, s: State)
    requires Inv(c, init, s) && UpEnabled(c, s, CleanDone)
    ensures Inv(c, init, UpApply(c, s, CleanDone))
  {
    hide AllKnown, NamesKnown, DiskOk, RunOk, Paths;
    NamesKnownUnion(c, init, s.w, s.r.info, s.p.processed, Paths(s.p.batch));
  }

  lemma UpKeeps(c: Config, init: map<string, Detail>, s: State, u: UpStep)
    requires Faithful(c.codec) && Inv(c, init, s) && UpEnabled(c, s, u)
    ensures Inv(c, init, UpApply(c, s, u))
  {
    hide Inv, UpApply;
    match u {
      case BatchReply(reply) => CommitKeeps(c, init, s, reply);
      case MetaReply(reply) => MetaKeeps(c, init, s, reply);
      case MergeLoad => MergeLoadKeeps(c, init, s);
      case MergeTmpPartial(_) => MergeFileKeeps(c, init, s, u);
      case MergeTmpWritten => MergeFileKeeps(c, init, s, u);
      case MergeRenamed => MergeFileKeeps(c, init, s, u);
      case MergeGivesUp(_) => MergeFileKeeps(c, init, s, u);
      case CleanDone => CleanDoneKeeps(c, init, s);
      case _ => QuietUpKeeps(c, init, s, u);
    }
  }

  lemma StartKeeps(c: Config, init: map<string, Detail>, s: State, info: Info, plan: seq<Task>)
    requires Inv(c, init, s) && MainEnabled(c, s, StartAttempt(info, plan))
    ensures Inv(c, init, MainApply(c, s, StartAttempt(info, plan)))
  {
    hide AllKnown, Keep, Skipped, TasksOk;
    var t := MainApply(c, s, StartAttempt(info, plan));
    EmptyKnown(c, init, s.w);
    NoTasksOk(c, info);
    var changed := set n | n in info.bundles.Keys
                        && !(n in Bundles(t.r.was) && Bundles(t.r.was)[n].crc == info.bundles[n].crc);
    FilterOk(c, info, plan, changed);
    OpenOk(c, info, multiset{}, Layer1Kept(Bundles(t.r.was), info.bundles, plan));
  }

  lemma NoTasksOk(c: Config, info: Info)
    ensures TasksOk(c, info, [])
  {
  }

  lemma EmptyKnown(c: Config, init: map<string, Detail>, w: World)
    ensures AllKnown(c, init, w, map[])
  {
  }

  lemma SaveKeeps(c: Config, init: map<string, Detail>, s: State, m: MainStep)
    requires Faithful(c.codec) && Inv(c, init, s) && MainEnabled(c, s, m)
    requires m.SaveTmpPartial? || m.SaveTmpWritten? || m.SaveRenamed? || m.SaveGivesUp?
    ensures Inv(c, init, MainApply(c, s, m))
  {
    hide AllKnown, NamesKnown, DiskOk, RunOk, Paths, TasksOk;
    var t := MainApply(c, s, m);
    TmpIsInvisible(c, init, s.w, t.w.tmp, s.r, s.p);
    AllKnownGrows(c, init, s.w, t.w, s.main.next.bundles);
    if m.SaveRenamed? {
      RenameOk(c, init, s.w, s.main.next);
      RunGrows(c, init, s.w, t.w, s.r);
      NamesKnownGrows(c, init, s.w, t.w, s.r.info, s.p.processed);
    }
  }

  lemma MainKeeps(c: Config, init: map<string, Detail>, s: State, m: MainStep)
    requires Faithful(c.codec) && Inv(c, init, s) && MainEnabled(c, s, m)
    ensures Inv(c, init, MainApply(c, s, m))
  {
    match m {
      case StartAttempt(info, plan) => StartKeeps(c, init, s, info, plan);
      case JoinTasks =>
        NextIsKnown(c, init, s);
        hide AllKnown, NamesKnown, DiskOk, RunOk, PipeOk, NextSnapshotOf;
      case FinishAttempt =>
      case _ => SaveKeeps(c, init, s, m);
    }
  }

  lemma StepKeepsInv(c: Config, init: map<string, Detail>, s: State, step: Step)
    requires Faithful(c.codec) && Inv(c, init, s) && Enabled(c, s, step)
    ensures Inv(c, init, Apply(c, s, step))
  {
    hide DiskOk, RunOk, PipeOk, UpApply, ExecApply, MainApply, ForwardApply;
    match step {
      case ExecDo(e) => ExecKeeps(c, init, s, e);
      case Forward => ForwardKeeps(c, init, s);
      case UpDo(u) => UpKeeps(c, init, s, u);
      case MainDo(m) => MainKeeps(c, init, s, m);
      case FireCancel =>
      case Crash =>
    }
  }

  lemma {:induction false} RunKeepsInv(c: Config, trace: seq<State>, steps: seq<Step>, n: nat)
    requires Faithful(c.codec) && IsRun(c, trace, steps) && n <= |steps|
    ensures Inv(c, InitialBundles(c, trace[0].w), trace[n])
  {
    if n == 0 {
      var init := InitialBundles(c, trace[0].w);
      assert AllKnown(c, init, trace[0].w, init);
    } else {
      hide Inv;
      RunKeepsInv(c, trace, steps, n - 1);
      StepKeepsInv(c, InitialBundles(c, trace[0].w), trace[n - 1], steps[n - 1]);
    }
  }
}

/** Accounting of tasks and COMMITs in an uncancelled attempt: the invariant and its steps. */
module AttemptAccounting {
  import opened Common
  import opened BundleDiff
  import opened Tasks
  import opened TaskPlan
  import opened CheckFiltering
  import opened Attempt

  // ---------------------------------------------------------------- what the gateway was told

  /** All completions listed by a list of COMMITs, in order. */
  function Completions(es: seq<Logged>): seq<Completion> {
    if es == [] then [] else Completions(es[..|es| - 1]) + es[|es| - 1].msg.completed
  }

  /** The skip counters of a list of COMMITs, added up. */
  function SkipTotal(es: seq<Logged>): nat {
    if es == [] then 0 else SkipTotal(es[..|es| - 1]) + es[|es| - 1].msg.skippedByCheck
  }

  lemma OneMoreCommit(es: seq<Logged>, e: Logged)
    ensures Completions(es + [e]) == Completions(es) + e.msg.completed
    ensures SkipTotal(es + [e]) == SkipTotal(es) + e.msg.skippedByCheck
  {
    assert (es + [e])[..|es|] == es;
  }

  /** The COMMITs of the current attempt. */
  function Tail(s: State): seq<Logged>
    requires s.r.base <= |s.w.log|
  {
    s.w.log[s.r.base..]
  }

  // ---------------------------------------------------------------- invariant

  /** The planned tasks split into unchecked, unfinished, skipped, produced and failed. */
  ghost predicate PlanSplit(r: Run) {
    multiset(r.plan) == multiset(r.todo) + r.open + multiset(r.skipped) + multiset(r.produced) + multiset(r.failed)
  }

  ghost predicate ExecOk(r: Run) {
    && PlanSplit(r)
    && (r.exec.Checking? ==> r.produced == [])
    && (r.exec.Running? || r.exec == Ended(true) ==> r.todo == [])
    && (r.exec == Ended(true) ==> r.open == multiset{})
  }

  predicate HasBatch(up: Up) {
    up.Flushing? || up.Committing? || up.Merging? || up.MergeWriting? || up.MergeRenaming? || up.Cleaning?
  }

  predicate BatchLogged(up: Up) { up.Merging? || up.MergeWriting? || up.MergeRenaming? || up.Cleaning? }

  /** Everything the uploader has taken, holds or will get, in order. */
  function Line(p: Pipe): seq<Task> { p.flushed + p.batch + p.channel + p.progress }

  /** The senders are gone and nothing is on its way to the uploader. */
  predicate Dry(r: Run, p: Pipe) { r.exec.Ended? && p.progress == [] && p.channel == [] }

  /** Artefacts keep their order and none is lost between executor and uploader. */
  ghost predicate Queued(r: Run, p: Pipe) {
    && r.produced == Line(p)
    && (HasBatch(p.up) ==> p.batch != [] && (p.up.last ==> Dry(r, p)))
    && (p.up.MetaCommitting? || p.up == Stopped(true) ==> Dry(r, p) && p.batch == [])
    && (p.up == Stopped(true) || BatchLogged(p.up) ==> !p.firstPending)
    && (p.up.MetaCommitting? ==> p.firstPending)
    && (!p.firstPending ==> !r.exec.Checking?)
  }

  /** The tasks whose batches the gateway has acknowledged. */
  function Listed(p: Pipe): seq<Task> { if BatchLogged(p.up) then p.flushed + p.batch else p.flushed }

  /** The COMMITs so far list the skip report once and every acknowledged batch once. */
  ghost predicate Reported(skipped: seq<Task>, first: bool, listed: seq<Task>, tail: seq<Logged>) {
    && Completions(tail) == (if first then [] else SkipEntries(skipped)) + Entries(listed, FromBatch)
    && SkipTotal(tail) == (if first then 0 else |skipped|)
    && (forall k :: 1 <= k < |tail| ==> tail[k].msg.skippedByCheck == 0)
    && (first ==> tail == [] && listed == [])
  }

  ghost predicate Acct(s: State) {
    && s.r.base <= |s.w.log|
    && ExecOk(s.r)
    && DistinctPaths(s.r.plan)
    && (s.p.up != Stopped(false) ==> s.p.processed == Paths(s.p.flushed))
    && (s.main.SaveWriting? || s.main.SaveRenaming? ==> s.main.next == NextSnapshotOf(s.r, s.p))
    && (!s.cancelled && s.p.up != Stopped(false) ==>
         Queued(s.r, s.p) && Reported(s.r.skipped, s.p.firstPending, Listed(s.p), Tail(s)))
  }

  ghost predicate Inv(c: Config, s: State) { c.hip && !s.main.Idle? ==> Acct(s) }

  // ---------------------------------------------------------------- executor and forwarder

  lemma CheckSplit(r: Run, n: nat, skip: set<string>)
    requires PlanSplit(r) && n <= |r.todo|
    ensures PlanSplit(r.(todo := r.todo[n..], skipped := r.skipped + Skipped(r.todo[..n], skip),
                         open := r.open + multiset(Keep(r.todo[..n], skip))))
  {
    hide Keep, Skipped;
    FilterPartitions(r.todo[..n], skip);
    assert r.todo == r.todo[..n] + r.todo[n..];
  }

  lemma FinishSplit(r: Run, t: Task)
    requires PlanSplit(r) && t in r.open
    ensures PlanSplit(r.(open := r.open - multiset{t}, produced := r.produced + [t]))
    ensures PlanSplit(r.(open := r.open - multiset{t}, failed := r.failed + [t]))
  {
  }

  lemma CheckKeeps(c: Config, s: State, n: nat, skip: set<string>)
    requires Inv(c, s) && ExecEnabled(s, CheckChunk(n, skip))
    ensures Inv(c, ExecApply(s, CheckChunk(n, skip)))
  {
    hide Reported, PlanSplit, Line, Listed, Keep, Skipped, Answered;
    if c.hip {
      CheckSplit(s.r, n, skip);
      if !s.cancelled && s.p.up != Stopped(false) {
        assert s.p.firstPending;
        SkipsDoNotMatterYet(s.r.skipped, s.r.skipped + Skipped(s.r.todo[..n], skip), Listed(s.p), Tail(s));
      }
    }
  }

  /** Before the first COMMIT the skip report is still open. */
  lemma SkipsDoNotMatterYet(a: seq<Task>, b: seq<Task>, listed: seq<Task>, tail: seq<Logged>)
    requires Reported(a, true, listed, tail)
    ensures Reported(b, true, listed, tail)
  {
  }

  lemma ExecKeeps(c: Config, s: State, e: ExecStep)
    requires Inv(c, s) && ExecEnabled(s, e)
    ensures Inv(c, ExecApply(s, e))
  {
    if e.CheckChunk? {
      CheckKeeps(c, s, e.n, e.skip);
    } else {
      WorkKeeps(c, s, e);
    }
  }

  lemma WorkKeeps(c: Config, s: State, e: ExecStep)
    requires Inv(c, s) && ExecEnabled(s, e) && !e.CheckChunk?
    ensures Inv(c, ExecApply(s, e))
  {
    hide Acct;
    if c.hip {
      match e {
        case Produce(t) => ProduceKeeps(s, t);
        case FailTask(t) => FailKeeps(s, t);
        case _ => PhaseKeeps(s, e);
      }
    }
  }

  lemma ProduceKeeps(s: State, t: Task)
    requires Acct(s) && ExecEnabled(s, Produce(t))
    ensures Acct(ExecApply(s, Produce(t)))
  {
    hide Reported, PlanSplit, Line;
    FinishSplit(s.r, t);
    LineGrows(s.p, t);
  }

  lemma FailKeeps(s: State, t: Task)
    requires Acct(s) && ExecEnabled(s, FailTask(t))
    ensures Acct(ExecApply(s, FailTask(t)))
  {
    hide Reported, PlanSplit, Line;
    FinishSplit(s.r, t);
  }

  lemma PhaseKeeps(s: State, e: ExecStep)
    requires Acct(s) && ExecEnabled(s, e) && (e.BeginWork? || e.ExecEnd?)
    ensures Acct(ExecApply(s, e))
  {
    hide Reported, PlanSplit, Line;
    SplitIgnoresPhase(s.r, ExecApply(s, e).r.exec);
  }

  lemma SplitIgnoresPhase(r: Run, exec: Exec)
    requires PlanSplit(r)
    ensures PlanSplit(r.(exec := exec))
  {
  }

  lemma LineGrows(p: Pipe, t: Task)
    ensures Line(p.(progress := p.progress + [t])) == Line(p) + [t]
  {
    assert p.flushed + p.batch + p.channel + (p.progress + [t]) == (p.flushed + p.batch + p.channel + p.progress) + [t];
  }

  lemma LineForwards(p: Pipe)
    requires p.progress != []
    ensures Line(p.(progress := p.progress[1..], channel := p.channel + [p.progress[0]])) == Line(p)
  {
    assert p.progress == [p.progress[0]] + p.progress[1..];
    assert p.flushed + p.batch + (p.channel + [p.progress[0]]) + p.progress[1..] ==
           p.flushed + p.batch + p.channel + ([p.progress[0]] + p.progress[1..]);
  }

  lemma LineReceives(p: Pipe, q: Pipe)
    requires p.channel != [] && q.channel == p.channel[1..] && q.batch == p.batch + [p.channel[0]]
    requires q.flushed == p.flushed && q.progress == p.progress
    ensures Line(q) == Line(p)
  {
    assert p.channel == [p.channel[0]] + p.channel[1..];
    assert p.flushed + (p.batch + [p.channel[0]]) + p.channel[1..] ==
           p.flushed + p.batch + ([p.channel[0]] + p.channel[1..]);
  }

  lemma LineCleans(p: Pipe, q: Pipe)
    requires q.flushed == p.flushed + p.batch && q.batch == [] && q.channel == p.channel && q.progress == p.progress
    ensures Line(q) == Line(p)
  {
    assert q.flushed + [] == q.flushed;
  }

  lemma ForwardKeeps(c: Config, s: State)
    requires Inv(c, s) && ForwardEnabled(s)
    ensures Inv(c, ForwardApply(s))
  {
    if c.hip {
      hide Reported, ExecOk, Line;
      LineForwards(s.p);
    }
  }

  // ---------------------------------------------------------------- uploader

  lemma SameLine(p: Pipe, q: Pipe)
    requires q.flushed == p.flushed && q.batch == p.batch && q.channel == p.channel && q.progress == p.progress
    ensures Line(q) == Line(p)
  {
  }

  /** The uploader moves on without receiving, reporting or retiring a batch. */
  lemma UpMoves(s: State, w: World, mergeFailed: bool, up: Up)
    requires Acct(s) && s.main.Live? && w.log == s.w.log
    requires up == Stopped(false)
             || (HasBatch(up) && HasBatch(s.p.up) && up.last == s.p.up.last && BatchLogged(up) == BatchLogged(s.p.up))
    ensures Acct(s.(w := w, p := s.p.(mergeFailed := mergeFailed, up := up)))
  {
    hide Reported, ExecOk, Line;
    SameLine(s.p, s.p.(mergeFailed := mergeFailed, up := up));
  }

  lemma StopReceivingKeeps(c: Config, s: State)
    requires c.hip && !s.main.Idle? && Acct(s) && UpEnabled(c, s, StopReceiving)
    ensures Acct(UpApply(c, s, StopReceiving))
  {
    hide Reported, ExecOk, Line;
    var t := UpApply(c, s, StopReceiving);
    SameLine(s.p, t.p);
  }

  lemma QuietUpKeeps(c: Config, s: State, u: UpStep)
    requires Inv(c, s) && UpEnabled(c, s, u) && !u.BatchReply? && !u.MetaReply? && !u.CleanDone? && !u.Receive?
    ensures Inv(c, UpApply(c, s, u))
  {
    hide Acct, LoadBytes, Merged, BatchDetails;
    if c.hip {
      if u.StopReceiving? {
        StopReceivingKeeps(c, s);
      } else {
        var t := UpApply(c, s, u);
        UpMoves(s, t.w, t.p.mergeFailed, t.p.up);
        assert t == s.(w := t.w, p := s.p.(mergeFailed := t.p.mergeFailed, up := t.p.up));
      }
    }
  }

  lemma ReceiveKeeps(c: Config, s: State, bytes: nat)
    requires Inv(c, s) && UpEnabled(c, s, Receive(bytes))
    ensures Inv(c, UpApply(c, s, Receive(bytes)))
  {
    hide Reported, ExecOk, ShouldFlush, Line, Paths, PlanSplit, DistinctPaths;
    if c.hip {
      var t := UpApply(c, s, Receive(bytes));
      LineReceives(s.p, t.p);
    }
  }

  lemma CleanKeeps(c: Config, s: State)
    requires Inv(c, s) && UpEnabled(c, s, CleanDone)
    ensures Inv(c, UpApply(c, s, CleanDone))
  {
    hide Reported, ExecOk, Paths, Line;
    if c.hip {
      PathsAppend(s.p.flushed, s.p.batch);
      LineCleans(s.p, UpApply(c, s, CleanDone).p);
    }
  }

  lemma EntriesAppend(a: seq<Task>, b: seq<Task>, source: Source)
    ensures Entries(a + b, source) == Entries(a, source) + Entries(b, source)
  {
  }

  lemma NoEntries(source: Source)
    ensures Entries([], source) == []
  {
  }

  /** An acknowledged batch COMMIT adds its batch, and the skip report if it was still due. */
  lemma BatchReported(skipped: seq<Task>, first: bool, flushed: seq<Task>, batch: seq<Task>, tail: seq<Logged>, info: Info)
    requires Reported(skipped, first, flushed, tail)
    ensures Reported(skipped, false, flushed + batch, tail + [Logged(info, BatchCommit(first, skipped, batch))])
  {
    hide Completions, SkipTotal, SkipEntries, Entries, Paths;
    OneMoreCommit(tail, Logged(info, BatchCommit(first, skipped, batch)));
    EntriesAppend(flushed, batch, FromBatch);
    NoEntries(FromBatch);
    var (f, b, sk) := (Entries(flushed, FromBatch), Entries(batch, FromBatch), SkipEntries(skipped));
    if first {
      assert [] + [] + (sk + b) == sk + ([] + b);
    } else {
      assert sk + f + ([] + b) == sk + (f + b);
    }
  }

  lemma ReplyKeeps(c: Config, s: State, reply: Reply)
    requires Inv(c, s) && UpEnabled(c, s, BatchReply(reply))
    ensures Inv(c, UpApply(c, s, BatchReply(reply)))
  {
    hide Reported, BatchCommit, PlanSplit, Line;
    if c.hip {
      var t := UpApply(c, s, BatchReply(reply));
      if reply.Acknowledged? && !s.cancelled {
        var msg := BatchCommit(s.p.firstPending, s.r.skipped, s.p.batch);
        BatchReported(s.r.skipped, s.p.firstPending, s.p.flushed, s.p.batch, Tail(s), s.r.info);
        assert Tail(t) == Tail(s) + [Logged(s.r.info, msg)];
        SameLine(s.p, t.p);
        BatchIsInLine(s.p);
      }
    }
  }

  lemma BatchIsInLine(p: Pipe)
    requires p.batch != []
    ensures Line(p) != []
  {
  }

  lemma NoSkipsNoReport()
    ensures SkipEntries([]) == []
  {
    assert ByPath([]) == SortTasks([]);
  }

  /** The metadata-only COMMIT is the skip report; without skips none is sent and none was due. */
  lemma MetaReported(skipped: seq<Task>, tail: seq<Logged>, info: Info)
    requires Reported(skipped, true, [], tail)
    ensures Reported(skipped, false, [], tail + [Logged(info, MetaCommit(skipped))])
    ensures skipped == [] ==> Reported(skipped, false, [], tail)
  {
    NoSkipsNoReport();
    NoEntries(FromBatch);
    OneMoreCommit(tail, Logged(info, MetaCommit(skipped)));
    hide Completions, SkipTotal, SkipEntries, Entries;
    assert [] + [] + SkipEntries(skipped) == SkipEntries(skipped) + [];
  }

  lemma MetaKeeps(c: Config, s: State, reply: Reply)
    requires Inv(c, s) && UpEnabled(c, s, MetaReply(reply))
    ensures Inv(c, UpApply(c, s, MetaReply(reply)))
  {
    hide Reported, MetaCommit, ExecOk, Line;
    if c.hip {
      var t := UpApply(c, s, MetaReply(reply));
      if !s.cancelled {
        FirstMeansNothingListed(s.r.skipped, Listed(s.p), Tail(s));
        MetaReported(s.r.skipped, Tail(s), s.r.info);
        if s.r.skipped != [] && reply.Acknowledged? {
          assert Tail(t) == Tail(s) + [Logged(s.r.info, MetaCommit(s.r.skipped))];
        }
        SameLine(s.p, t.p);
      }
    }
  }

  lemma FirstMeansNothingListed(skipped: seq<Task>, listed: seq<Task>, tail: seq<Logged>)
    requires Reported(skipped, true, listed, tail)
    ensures listed == []
  {
  }

  lemma UpKeeps(c: Config, s: State, u: UpStep)
    requires Inv(c, s) && UpEnabled(c, s, u)
    ensures Inv(c, UpApply(c, s, u))
  {
    hide Inv, UpApply;
    match u {
      case Receive(bytes) => ReceiveKeeps(c, s, bytes);
      case BatchReply(reply) => ReplyKeeps(c, s, reply);
      case MetaReply(reply) => MetaKeeps(c, s, reply);
      case CleanDone => CleanKeeps(c, s);
      case _ => QuietUpKeeps(c, s, u);
    }
  }

  lemma NothingReportedYet(skipped: seq<Task>)
    ensures Reported(skipped, true, [], [])
  {
    NoEntries(FromBatch);
  }

  lemma MainKeeps(c: Config, s: State, m: MainStep)
    requires Inv(c, s) && MainEnabled(c, s, m)
    ensures Inv(c, MainApply(c, s, m))
  {
    hide Reported, LoadBytes, NextSnapshotOf, Keep, Skipped, DistinctPaths, TasksOk, Layer1Kept;
    if c.hip {
      if m.StartAttempt? {
        var t := MainApply(c, s, m);
        NothingReportedYet([]);
        assert Tail(t) == [] && Line(t.p) == [];
      }
    }
  }

  lemma StepKeepsInv(c: Config, s: State, step: Step)
    requires Inv(c, s) && Enabled(c, s, step)
    ensures Inv(c, Apply(c, s, step))
  {
    hide UpApply, ExecApply, MainApply, ForwardApply, ExecOk, Queued, Reported;
    match step {
      case ExecDo(e) => ExecKeeps(c, s, e);
      case Forward => ForwardKeeps(c, s);
      case UpDo(u) => UpKeeps(c, s, u);
      case MainDo(m) => MainKeeps(c, s, m);
      case FireCancel =>
      case Crash =>
    }
  }

  lemma {:induction false} RunKeepsInv(c: Config, trace: seq<State>, steps: seq<Step>, n: nat)
    requires IsRun(c, trace, steps) && n <= |steps|
    ensures Inv(c, trace[n])
  {
    if n > 0 {
      hide Acct;
      RunKeepsInv(c, trace, steps, n - 1);
      StepKeepsInv(c, trace[n - 1], steps[n - 1]);
    }
  }
}
