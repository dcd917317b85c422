/**
 How a stream of artefacts is cut into batches and COMMITs: one function of the
 artefacts received, which both the uploader as a program and the uploader as
 steps of the attempt turn out to compute.
 */
module Batching {
  import opened Common
  import opened Tasks
  import opened Attempt

  function TasksOf(arts: seq<Art>): (tasks: seq<Task>)
    ensures |tasks| == |arts|
  {
    seq(|arts|, i requires 0 <= i < |arts| => arts[i].task)
  }

  /** The bytes of all artefacts together. */
  function Measured(arts: seq<Art>): nat { Sum(seq(|arts|, i requires 0 <= i < |arts| => arts[i].bytes)) }

  lemma OneMore(arts: seq<Art>, a: Art)
    ensures Measured(arts + [a]) == Measured(arts) + a.bytes
    ensures TasksOf(arts + [a]) == TasksOf(arts) + [a.task]
  {
    var bytes := seq(|arts|, i requires 0 <= i < |arts| => arts[i].bytes);
    SumSnoc(bytes, a.bytes);
    assert seq(|arts + [a]|, i requires 0 <= i < |arts + [a]| => (arts + [a])[i].bytes) == bytes + [a.bytes];
  }

  predicate Full(c: Config, b: seq<Art>) { ShouldFlush(c, TasksOf(b), Measured(b)) }

  /** A batch no larger than the bundle threshold and, without its last element, below the byte threshold. */
  ghost predicate Fits(c: Config, b: seq<Art>) {
    && b != []
    && (c.batchBundles > 0 ==> |b| <= c.batchBundles)
    && (c.batchBytes > 0 ==> Measured(b[..|b| - 1]) < c.batchBytes)
  }

  /** What closes a batch: it has reached the bundle threshold, or the byte threshold. */
  ghost predicate Triggers(c: Config, b: seq<Art>) {
    || (c.batchBundles > 0 && |b| == c.batchBundles)
    || (c.batchBytes > 0 && Measured(b) >= c.batchBytes)
  }

  /** What does not: it is below both. */
  ghost predicate Below(c: Config, b: seq<Art>) {
    && (c.batchBundles > 0 ==> |b| < c.batchBundles)
    && (c.batchBytes > 0 ==> Measured(b) < c.batchBytes)
  }

  /** A cut as the thresholds ask for it: every batch fits, and none but the last is closed before a threshold is reached. */
  ghost predicate IsCut(c: Config, batches: seq<seq<Art>>) {
    && (forall i :: 0 <= i < |batches| ==> Fits(c, batches[i]))
    && (forall i :: 0 <= i < |batches| - 1 ==> Triggers(c, batches[i]))
  }

  /** Add one artefact to the open batch and close the batch if it is full. */
  function Take(c: Config, split: (seq<seq<Art>>, seq<Art>), a: Art): (seq<seq<Art>>, seq<Art>) {
    var b := split.1 + [a];
    if Full(c, b) then (split.0 + [b], []) else (split.0, b)
  }

  /** The closed batches and the open one. */
  function Split(c: Config, arts: seq<Art>): (seq<seq<Art>>, seq<Art>) {
    if arts == [] then ([], []) else Take(c, Split(c, arts[..|arts| - 1]), arts[|arts| - 1])
  }

  lemma SplitSnoc(c: Config, arts: seq<Art>, a: Art)
    ensures Split(c, arts + [a]) == Take(c, Split(c, arts), a)
  {
    assert (arts + [a])[..|arts|] == arts;
  }

  /** All batches of a finished stream. */
  function AllBatches(c: Config, arts: seq<Art>): seq<seq<Art>> {
    var (closed, rest) := Split(c, arts);
    if rest == [] then closed else closed + [rest]
  }

  ghost predicate SplitOk(c: Config, arts: seq<Art>, closed: seq<seq<Art>>, rest: seq<Art>) {
    && Flatten(closed) + rest == arts
    && (forall i :: 0 <= i < |closed| ==> Fits(c, closed[i]) && Triggers(c, closed[i]))
    && Below(c, rest)
  }

  lemma NothingFull(c: Config)
    ensures SplitOk(c, [], [], []) && Below(c, [])
  {
  }

  lemma TakeKeepsSplit(c: Config, arts: seq<Art>, closed: seq<seq<Art>>, rest: seq<Art>, a: Art)
    requires SplitOk(c, arts, closed, rest)
    ensures var (closed', rest') := Take(c, (closed, rest), a); SplitOk(c, arts + [a], closed', rest')
  {
    Growing(c, rest, a);
    NothingFull(c);
    FlattenSnoc(closed, rest + [a]);
    hide Fits, Triggers, Below, Full, Flatten;
    assert Flatten(closed) + (rest + [a]) == (Flatten(closed) + rest) + [a];
  }

  lemma {:induction false} SplitFits(c: Config, arts: seq<Art>)
    ensures var (closed, rest) := Split(c, arts); SplitOk(c, arts, closed, rest)
  {
    hide SplitOk, Take;
    if arts == [] {
      NothingFull(c);
    } else {
      var before := arts[..|arts| - 1];
      SplitFits(c, before);
      var (closed, rest) := Split(c, before);
      TakeKeepsSplit(c, before, closed, rest, arts[|arts| - 1]);
      assert before + [arts[|arts| - 1]] == arts;
    }
  }

  /** Nothing is lost or reordered, and the batches are a cut as the thresholds ask for it. */
  lemma BatchesFit(c: Config, arts: seq<Art>)
    ensures Flatten(AllBatches(c, arts)) == arts
    ensures IsCut(c, AllBatches(c, arts))
  {
    hide Split, Flatten, Fits, Triggers;
    SplitFits(c, arts);
    var (closed, rest) := Split(c, arts);
    FlattenSnoc(closed, rest);
    if rest == [] {
      assert Flatten(closed) + rest == Flatten(closed);
    } else {
      OpenFits(c, rest);
    }
  }

  /** A batch below the thresholds fits with one more artefact, and then is either closed or still below. */
  lemma Growing(c: Config, b: seq<Art>, a: Art)
    requires Below(c, b)
    ensures Fits(c, b + [a])
    ensures if Full(c, b + [a]) then Triggers(c, b + [a]) else Below(c, b + [a])
  {
    assert (b + [a])[..|b|] == b;
  }

  lemma OpenFits(c: Config, rest: seq<Art>)
    requires rest != [] && Below(c, rest)
    ensures Fits(c, rest)
  {
    var n := |rest| - 1;
    OneMore(rest[..n], rest[n]);
    assert rest == rest[..n] + [rest[n]];
  }

  /** Cut off the end of a batch that fits and it is below both thresholds. */
  lemma {:induction false} PrefixIsBelow(c: Config, b: seq<Art>, n: nat)
    requires Fits(c, b) && n < |b|
    ensures Below(c, b[..n])
    decreases |b|
  {
    var m := |b| - 1;
    if n < m {
      assert Below(c, b[..m]);
      OpenFits(c, b[..m]);
      PrefixIsBelow(c, b[..m], n);
      assert b[..m][..n] == b[..n];
    }
  }

  /** There is only one such cut of a stream, so the thresholds decide every batch. */
  lemma {:induction false} CutIsUnique(c: Config, xs: seq<seq<Art>>, ys: seq<seq<Art>>)
    requires IsCut(c, xs) && IsCut(c, ys) && Flatten(xs) == Flatten(ys)
    ensures xs == ys
    decreases |xs|
  {
    if xs == [] || ys == [] {
      assert xs == [] && ys == [];
    } else {
      if |xs[0]| < |ys[0]| {
        FirstIsNotShorter(c, xs, ys);
      } else if |ys[0]| < |xs[0]| {
        FirstIsNotShorter(c, ys, xs);
      }
      var all := Flatten(xs);
      assert xs[0] == all[..|xs[0]|] && ys[0] == all[..|ys[0]|];
      assert Flatten(xs[1..]) == all[|xs[0]|..] && Flatten(ys[1..]) == all[|ys[0]|..];
      CutIsUnique(c, xs[1..], ys[1..]);
      assert xs == [xs[0]] + xs[1..] && ys == [ys[0]] + ys[1..];
    }
  }

  lemma FirstIsNotShorter(c: Config, xs: seq<seq<Art>>, ys: seq<seq<Art>>)
    requires IsCut(c, xs) && IsCut(c, ys) && Flatten(xs) == Flatten(ys) && xs != [] && ys != []
    ensures |xs[0]| >= |ys[0]|
  {
    if |xs[0]| < |ys[0]| {
      var n := |xs[0]|;
      assert xs[0] == Flatten(xs)[..n] == Flatten(ys)[..n] == ys[0][..n];
      PrefixIsBelow(c, ys[0], n);
    }
  }

  // ---------------------------------------------------------------- COMMITs

  /** The COMMITs of a run, given its batches: the skip report rides on the first, or goes alone. */
  function CommitsFor(skipped: seq<Task>, batches: seq<seq<Art>>): seq<CommitMsg> {
    if batches == [] then (if skipped == [] then [] else [MetaCommit(skipped)])
    else CommitsOfBatches(skipped, batches)
  }

  function CommitsOfBatches(skipped: seq<Task>, batches: seq<seq<Art>>): seq<CommitMsg> {
    seq(|batches|, i requires 0 <= i < |batches| => BatchCommit(i == 0, skipped, TasksOf(batches[i])))
  }

  lemma PathsSnoc(init: seq<Task>, last: Task)
    ensures Paths(init + [last]) == Paths(init) + {last.path}
    ensures (forall i :: 0 <= i < |init| ==> init[i].path != last.path) ==> last.path !in Paths(init)
  {
    PathsAppend(init, [last]);
  }

  lemma {:induction false} PathCount(ts: seq<Task>)
    requires DistinctPaths(ts)
    ensures |Paths(ts)| == |ts|
  {
    if ts == [] {
      assert Paths(ts) == {};
    } else {
      hide Paths;
      var init, last := ts[..|ts| - 1], ts[|ts| - 1];
      PathCount(init);
      PathsSnoc(init, last);
      assert ts == init + [last];
    }
  }

  /** The entry reports a skipped bundle, with its hash. */
  ghost predicate ReportsSkip(e: Completion, skipped: seq<Task>) {
    e.source == CheckSkip && exists t :: t in skipped && e.path == t.path && e.fingerprint == t.hash
  }

  lemma SkipEntriesSay(skipped: seq<Task>)
    ensures |SkipEntries(skipped)| == |skipped|
    ensures forall j :: 0 <= j < |skipped| ==> ReportsSkip(SkipEntries(skipped)[j], skipped)
  {
    hide SortTasks;
    var zeroed := seq(|skipped|, i requires 0 <= i < |skipped| => skipped[i].(priority := 0));
    var sorted := ByPath(skipped);
    assert |multiset(sorted)| == |multiset(zeroed)|;
    forall j | 0 <= j < |skipped| ensures ReportsSkip(SkipEntries(skipped)[j], skipped) {
      assert sorted[j] in multiset(sorted);
      assert sorted[j] in zeroed;
      var i :| 0 <= i < |zeroed| && zeroed[i] == sorted[j];
      assert skipped[i] in skipped;
    }
  }

  /**
   What a COMMIT says, field by field: the number of bundles uploaded, the
   number skipped if it is the first, then the skipped bundles as such and the
   uploaded ones in order, each with its path and hash.
   */
  lemma CommitSays(first: bool, skipped: seq<Task>, batch: seq<Task>)
    requires DistinctPaths(batch)
    ensures var (m, k) := (BatchCommit(first, skipped, batch), if first then |skipped| else 0);
            && m.bundleCount == |batch| && m.skippedByCheck == k && |m.completed| == k + |batch|
            && (forall j :: 0 <= j < |batch| ==> m.completed[k + j] == Completion(batch[j].path, batch[j].hash, FromBatch))
            && (forall j :: 0 <= j < k ==> ReportsSkip(m.completed[j], skipped))
    ensures var m := MetaCommit(skipped);
            && m.bundleCount == 0 && m.skippedByCheck == |skipped| == |m.completed|
            && (forall j :: 0 <= j < |skipped| ==> ReportsSkip(m.completed[j], skipped))
  {
    hide Paths, SkipEntries, ReportsSkip;
    PathCount(batch);
    SkipEntriesSay(skipped);
  }

  lemma OneMoreCommit(skipped: seq<Task>, batches: seq<seq<Art>>, batch: seq<Art>)
    ensures CommitsOfBatches(skipped, batches + [batch]) ==
            CommitsOfBatches(skipped, batches) + [BatchCommit(batches == [], skipped, TasksOf(batch))]
  {
  }

  lemma NoCommits(skipped: seq<Task>)
    ensures CommitsOfBatches(skipped, []) == []
  {
  }
}

/** The steps of the attempt's uploader log exactly the COMMITs of the program. */
module AttemptBatching {
  import opened Common
  import opened BundleDiff
  import opened Tasks
  import opened Attempt
  import opened Batching
  import opened TaskPlan
  import opened CheckFiltering
  import Acc = AttemptAccounting

  function Messages(log: seq<Logged>): seq<CommitMsg> { seq(|log|, i requires 0 <= i < |log| => log[i].msg) }

  lemma MessagesSnoc(log: seq<Logged>, e: Logged)
    ensures Messages(log + [e]) == Messages(log) + [e.msg]
  {
  }

  /** A closed batch is being flushed, so that the open one is empty. */
  predicate FlushesClosed(p: Pipe) { Acc.HasBatch(p.up) && !p.up.last }

  /** The artefacts of the batch under way. */
  function Cur(c: Config, p: Pipe): seq<Art> {
    var (closed, rest) := Split(c, p.seen);
    if FlushesClosed(p) && closed != [] then closed[|closed| - 1] else rest
  }

  /** The batches before it. */
  function Before(c: Config, p: Pipe): seq<seq<Art>> {
    var closed := Split(c, p.seen).0;
    if FlushesClosed(p) && closed != [] then closed[..|closed| - 1] else closed
  }

  /** The batches the gateway has acknowledged. */
  function Confirmed(c: Config, p: Pipe): seq<seq<Art>> {
    if Acc.BatchLogged(p.up) then Before(c, p) + [Cur(c, p)] else Before(c, p)
  }

  ghost predicate BatchOk(c: Config, p: Pipe) {
    && p.batch == TasksOf(Cur(c, p)) && p.bytes == Measured(Cur(c, p))
    && (FlushesClosed(p) ==> Split(c, p.seen).0 != [] && Split(c, p.seen).1 == [])
  }

  ghost predicate CommitsOk(c: Config, skipped: seq<Task>, p: Pipe, tail: seq<Logged>) {
    && Messages(tail) == CommitsOfBatches(skipped, Confirmed(c, p))
    && (p.firstPending <==> Confirmed(c, p) == [])
  }

  /** Retired artefacts and the current batch are what was received, in order. */
  ghost predicate SeenOk(p: Pipe) { TasksOf(p.seen) == p.flushed + p.batch }

  ghost predicate Track(c: Config, skipped: seq<Task>, p: Pipe, tail: seq<Logged>) {
    if p.up == Stopped(true) then Messages(tail) == CommitsFor(skipped, AllBatches(c, p.seen)) && p.batch == []
    else BatchOk(c, p) && CommitsOk(c, skipped, p, tail)
  }

  ghost predicate Inv(c: Config, s: State) {
    && Acc.Inv(c, s)
    && (c.hip && !s.main.Idle? ==> SeenOk(s.p))
    && (c.hip && !s.main.Idle? && !s.cancelled && s.p.up != Stopped(false) ==> Track(c, s.r.skipped, s.p, Acc.Tail(s)))
  }

  // ---------------------------------------------------------------- steps

  /** Before the first COMMIT the skip list does not matter yet. */
  lemma SkipsDoNotMatterYet(c: Config, a: seq<Task>, b: seq<Task>, p: Pipe, tail: seq<Logged>)
    requires Track(c, a, p, tail) && p.firstPending && p.up != Stopped(true)
    ensures Track(c, b, p, tail)
  {
    hide Split, BatchCommit;
    NoCommits(a);
    NoCommits(b);
  }

  /** Only these parts of the pipe count. */
  lemma SameTrack(c: Config, skipped: seq<Task>, p: Pipe, q: Pipe, tail: seq<Logged>)
    requires Track(c, skipped, p, tail)
    requires q.seen == p.seen && q.batch == p.batch && q.bytes == p.bytes && q.firstPending == p.firstPending
    requires q.up == p.up || (Acc.HasBatch(q.up) && Acc.HasBatch(p.up) && q.up.last == p.up.last
                              && Acc.BatchLogged(q.up) == Acc.BatchLogged(p.up))
    ensures Track(c, skipped, q, tail)
  {
    hide Split, CommitsOfBatches, TasksOf, Measured, Messages;
  }

  lemma ReceiveTracks(c: Config, s: State, bytes: nat)
    requires UpEnabled(c, s, Receive(bytes)) && s.r.base <= |s.w.log| && SeenOk(s.p)
    requires Track(c, s.r.skipped, s.p, Acc.Tail(s))
    ensures var t := UpApply(c, s, Receive(bytes)); SeenOk(t.p) && Track(c, s.r.skipped, t.p, Acc.Tail(s))
  {
    hide Split, CommitsOfBatches, TasksOf, Measured, Messages;
    var a := Art(s.p.channel[0], bytes);
    var (closed, rest) := Split(c, s.p.seen);
    SplitSnoc(c, s.p.seen, a);
    OneMore(rest, a);
    OneMore(s.p.seen, a);
    var t := UpApply(c, s, Receive(bytes));
    assert t.p.up == if Full(c, rest + [a]) then Flushing(false) else Receiving;
    assert s.p.flushed + (s.p.batch + [a.task]) == (s.p.flushed + s.p.batch) + [a.task];
    assert (closed + [rest + [a]])[..|closed|] == closed;
  }

  lemma EmptyIff(arts: seq<Art>)
    ensures TasksOf(arts) == [] <==> arts == []
    ensures TasksOf([]) == [] && Measured([]) == 0
  {
  }

  lemma StopTracks(c: Config, s: State)
    requires UpEnabled(c, s, StopReceiving) && s.r.base <= |s.w.log| && Track(c, s.r.skipped, s.p, Acc.Tail(s))
    ensures Track(c, s.r.skipped, UpApply(c, s, StopReceiving).p, Acc.Tail(s))
  {
    hide Split, CommitsOfBatches, TasksOf, Measured, Messages;
    EmptyIff(Cur(c, s.p));
  }

  lemma ReplyTracks(c: Config, s: State)
    requires UpEnabled(c, s, BatchReply(Acknowledged)) && s.r.base <= |s.w.log|
    requires Track(c, s.r.skipped, s.p, Acc.Tail(s))
    ensures var t := UpApply(c, s, BatchReply(Acknowledged));
            s.r.base <= |t.w.log| && Track(c, s.r.skipped, t.p, Acc.Tail(t))
  {
    hide Split, CommitsOfBatches, TasksOf, Measured, Messages, BatchCommit;
    var t := UpApply(c, s, BatchReply(Acknowledged));
    var e := Logged(s.r.info, BatchCommit(s.p.firstPending, s.r.skipped, s.p.batch));
    assert Acc.Tail(t) == Acc.Tail(s) + [e];
    MessagesSnoc(Acc.Tail(s), e);
    OneMoreCommit(s.r.skipped, Before(c, s.p), Cur(c, s.p));
  }

  lemma CleanTracks(c: Config, s: State)
    requires UpEnabled(c, s, CleanDone) && s.r.base <= |s.w.log| && s.p.batch != []
    requires Track(c, s.r.skipped, s.p, Acc.Tail(s))
    ensures Track(c, s.r.skipped, UpApply(c, s, CleanDone).p, Acc.Tail(s))
  {
    hide Split, CommitsOfBatches, TasksOf, Measured, Messages;
    var (closed, rest) := Split(c, s.p.seen);
    EmptyIff(Cur(c, s.p));
    if !s.p.up.last {
      assert closed == closed[..|closed| - 1] + [closed[|closed| - 1]];
    }
  }

  lemma MetaTracks(c: Config, s: State, reply: Reply)
    requires UpEnabled(c, s, MetaReply(reply)) && s.r.base <= |s.w.log| && s.p.firstPending && s.p.batch == []
    requires Track(c, s.r.skipped, s.p, Acc.Tail(s))
    ensures var t := UpApply(c, s, MetaReply(reply));
            t.r == s.r && s.r.base <= |t.w.log| && (t.p.up == Stopped(true) ==> Track(c, s.r.skipped, t.p, Acc.Tail(t)))
  {
    hide Split, CommitsOfBatches, TasksOf, Measured, Messages, MetaCommit;
    var t := UpApply(c, s, MetaReply(reply));
    EmptyIff(Cur(c, s.p));
    NoCommits(s.r.skipped);
    if t.p.up == Stopped(true) && s.r.skipped != [] {
      var e := Logged(s.r.info, MetaCommit(s.r.skipped));
      assert Acc.Tail(t) == Acc.Tail(s) + [e];
      MessagesSnoc(Acc.Tail(s), e);
    }
  }

  /** What the accounting of an uncancelled attempt says about the uploader. */
  lemma FromAccounting(c: Config, s: State)
    requires Acc.Inv(c, s) && c.hip && !s.main.Idle?
    ensures s.r.base <= |s.w.log|
    ensures !s.cancelled && s.p.up != Stopped(false) ==>
              && (Acc.HasBatch(s.p.up) ==> s.p.batch != [])
              && (s.p.up.MetaCommitting? ==> s.p.firstPending && s.p.batch == [])
              && (s.p.up == Stopped(true) ==> !s.p.firstPending)
              && (s.r.exec.Checking? ==> s.p.firstPending)
  {
    hide Acc.Reported, Acc.ExecOk, Acc.Line, Acc.Listed, Acc.Dry, DistinctPaths, Paths, NextSnapshotOf;
  }

  /** The tracked part of the invariant, once the accounting is known to hold before and after. */
  ghost predicate Tracked(c: Config, s: State)
    requires c.hip && !s.main.Idle? ==> s.r.base <= |s.w.log|
  {
    && (c.hip && !s.main.Idle? ==> SeenOk(s.p))
    && (c.hip && !s.main.Idle? && !s.cancelled && s.p.up != Stopped(false) ==> Track(c, s.r.skipped, s.p, Acc.Tail(s)))
  }

  lemma ExecTracks(c: Config, s: State, e: ExecStep)
    requires Inv(c, s) && ExecEnabled(s, e)
    ensures var t := ExecApply(s, e); (c.hip ==> t.r.base <= |t.w.log|) && Tracked(c, t)
  {
    if c.hip {
      FromAccounting(c, s);
      hide Acc.Inv, Track, SeenOk, Keep, Skipped, Answered;
      var t := ExecApply(s, e);
      assert SeenOk(t.p) by { assert SeenOk(s.p); SameSeen(s.p, t.p); }
      if !s.cancelled && s.p.up != Stopped(false) {
        SameTrack(c, s.r.skipped, s.p, t.p, Acc.Tail(s));
        if e.CheckChunk? { SkipsDoNotMatterYet(c, s.r.skipped, t.r.skipped, t.p, Acc.Tail(s)); }
      }
    }
  }

  lemma SameSeen(p: Pipe, q: Pipe)
    requires SeenOk(p) && q.seen == p.seen && q.flushed + q.batch == p.flushed + p.batch
    ensures SeenOk(q)
  {
  }

  lemma ForwardTracks(c: Config, s: State)
    requires Inv(c, s) && ForwardEnabled(s)
    ensures var t := ForwardApply(s); (c.hip ==> t.r.base <= |t.w.log|) && Tracked(c, t)
  {
    if c.hip {
      FromAccounting(c, s);
      hide Acc.Inv, Track, SeenOk;
      var t := ForwardApply(s);
      SameSeen(s.p, t.p);
      if !s.cancelled && s.p.up != Stopped(false) { SameTrack(c, s.r.skipped, s.p, t.p, Acc.Tail(s)); }
    }
  }

  lemma UpSeen(c: Config, s: State, u: UpStep)
    requires UpEnabled(c, s, u) && !u.Receive? && SeenOk(s.p)
    ensures SeenOk(UpApply(c, s, u).p)
  {
    hide SeenOk, BatchCommit, MetaCommit, LoadBytes, Merged, BatchDetails, Paths;
    var t := UpApply(c, s, u);
    assert t.p.flushed + t.p.batch == s.p.flushed + s.p.batch;
    SameSeen(s.p, t.p);
  }

  predicate Quiet(u: UpStep) {
    !u.Receive? && !u.StopReceiving? && !u.BatchReply? && !u.CleanDone? && !u.MetaReply?
  }

  lemma QuietUpTracks(c: Config, s: State, u: UpStep)
    requires UpEnabled(c, s, u) && Quiet(u) && s.r.base <= |s.w.log|
    requires s.p.up != Stopped(false) ==> Track(c, s.r.skipped, s.p, Acc.Tail(s))
    ensures var t := UpApply(c, s, u);
            t.w.log == s.w.log && t.r == s.r && (t.p.up != Stopped(false) ==> Track(c, s.r.skipped, t.p, Acc.Tail(s)))
  {
    hide Track, LoadBytes, Merged, BatchDetails;
    var t := UpApply(c, s, u);
    if t.p.up != Stopped(false) { SameTrack(c, s.r.skipped, s.p, t.p, Acc.Tail(s)); }
  }

  /** Stopping and retiring leave the log alone. */
  lemma LogUntouched(c: Config, s: State, u: UpStep)
    requires UpEnabled(c, s, u) && (u.Receive? || u.StopReceiving? || u.CleanDone?)
    ensures var t := UpApply(c, s, u); t.w == s.w && t.r == s.r && t.cancelled == s.cancelled && t.main == s.main
  {
    hide ShouldFlush, Paths;
  }

  lemma RepliesKeepRun(c: Config, s: State, u: UpStep)
    requires UpEnabled(c, s, u)
    ensures var t := UpApply(c, s, u); t.r == s.r && t.cancelled == s.cancelled && t.main == s.main && |s.w.log| <= |t.w.log|
    ensures u.BatchReply? && UpApply(c, s, u).p.up != Stopped(false) ==> u.reply == Acknowledged
    ensures u.MetaReply? && UpApply(c, s, u).p.up != Stopped(false) ==> UpApply(c, s, u).p.up == Stopped(true)
  {
    hide BatchCommit, MetaCommit, LoadBytes, Merged, BatchDetails, ShouldFlush, Paths;
  }

  lemma UpTracks(c: Config, s: State, u: UpStep)
    requires Inv(c, s) && UpEnabled(c, s, u) && c.hip
    ensures var t := UpApply(c, s, u); t.r.base <= |t.w.log| && Tracked(c, t)
  {
    FromAccounting(c, s);
    hide Acc.Inv, Track, SeenOk, UpApply;
    var t := UpApply(c, s, u);
    RepliesKeepRun(c, s, u);
    if !u.Receive? { UpSeen(c, s, u); }
    if u.Receive? {
      LogUntouched(c, s, u);
      if !s.cancelled { ReceiveTracks(c, s, u.bytes); }
    } else if !t.cancelled && t.p.up != Stopped(false) {
      match u {
        case StopReceiving => LogUntouched(c, s, u); StopTracks(c, s);
        case BatchReply(_) => ReplyTracks(c, s);
        case CleanDone => LogUntouched(c, s, u); CleanTracks(c, s);
        case MetaReply(reply) => MetaTracks(c, s, reply);
        case _ => QuietUpTracks(c, s, u);
      }
    }
  }

  lemma FreshTracks(c: Config, skipped: seq<Task>)
    requires c.hip
    ensures SeenOk(FreshPipe(c)) && Track(c, skipped, FreshPipe(c), [])
  {
    NoCommits(skipped);
    EmptyIff([]);
  }

  lemma MainTracks(c: Config, s: State, m: MainStep)
    requires Inv(c, s) && MainEnabled(c, s, m)
    ensures var t := MainApply(c, s, m); (c.hip && !t.main.Idle? ==> t.r.base <= |t.w.log|) && Tracked(c, t)
  {
    hide Acc.Acct, Track, SeenOk, LoadBytes, NextSnapshotOf, Layer1Kept, TasksOk, DistinctPaths, FreshPipe;
    if c.hip {
      if m.StartAttempt? {
        var t := MainApply(c, s, m);
        FreshTracks(c, t.r.skipped);
        assert t.w.log[t.r.base..] == [];
      } else {
        FromAccounting(c, s);
      }
    }
  }

  lemma StepKeepsInv(c: Config, s: State, step: Step)
    requires Inv(c, s) && Enabled(c, s, step)
    ensures Inv(c, Apply(c, s, step))
  {
    hide UpApply, ExecApply, MainApply, ForwardApply, Acc.Inv, Track, SeenOk;
    Acc.StepKeepsInv(c, s, step);
    var t := Apply(c, s, step);
    if c.hip && !t.main.Idle? {
      FromAccounting(c, t);
      match step {
        case ExecDo(e) => ExecTracks(c, s, e);
        case Forward => ForwardTracks(c, s);
        case UpDo(u) => UpTracks(c, s, u);
        case MainDo(m) => MainTracks(c, s, m);
        case FireCancel =>
      }
    }
  }

  lemma {:induction false} RunKeepsInv(c: Config, trace: seq<State>, steps: seq<Step>, n: nat)
    requires IsRun(c, trace, steps) && n <= |steps|
    ensures Inv(c, trace[n])
  {
    if n > 0 {
      hide Inv, Apply, Enabled;
      RunKeepsInv(c, trace, steps, n - 1);
      StepKeepsInv(c, trace[n - 1], steps[n - 1]);
    }
  }
}
