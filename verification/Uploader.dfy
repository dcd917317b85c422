/**
 The streaming uploader (`run_uploader`, `flush_batch`,
 `flush_metadata_only_commit` and `take_first_commit_extras` in
 src/service/poller.rs) as the sequential program it is.  Every I/O call may
 fail.  The artefacts received are those taken from the channel before it
 closed or the cancel token fired.
 */
module Uploader {
  import opened Common
  import opened Bytes
  import opened BundleDiff
  import opened Tasks
  import opened Attempt
  import opened AttemptResume
  import opened Batching

  datatype Event =
    | Opened(session: nat)
    | Uploads(session: nat, tasks: seq<Task>)
    | Commits(session: nat, msg: CommitMsg)
    | Closed(session: nat)

  function CommitsIn(wire: seq<Event>): seq<CommitMsg> {
    if wire == [] then [] else
    var last := wire[|wire| - 1];
    CommitsIn(wire[..|wire| - 1]) + if last.Commits? then [last.msg] else []
  }

  /** The batches uploaded, in order. */
  function UploadsIn(wire: seq<Event>): seq<seq<Task>> {
    if wire == [] then [] else
    var last := wire[|wire| - 1];
    UploadsIn(wire[..|wire| - 1]) + if last.Uploads? then [last.tasks] else []
  }

  /** The last three events: upload, COMMIT and goodbye, all on one session. */
  ghost predicate EndsWithOneSession(wire: seq<Event>, tasks: seq<Task>, msg: CommitMsg) {
    && |wire| >= 3 && wire[|wire| - 3].Uploads?
    && var id := wire[|wire| - 3].session;
    && wire[|wire| - 3] == Uploads(id, tasks) && wire[|wire| - 2] == Commits(id, msg) && wire[|wire| - 1] == Closed(id)
  }

  function TasksOfAll(batches: seq<seq<Art>>): seq<seq<Task>> {
    seq(|batches|, i requires 0 <= i < |batches| => TasksOf(batches[i]))
  }

  lemma CommitsInSnoc(wire: seq<Event>, e: Event)
    ensures CommitsIn(wire + [e]) == CommitsIn(wire) + if e.Commits? then [e.msg] else []
    ensures UploadsIn(wire + [e]) == UploadsIn(wire) + if e.Uploads? then [e.tasks] else []
  {
    assert (wire + [e])[..|wire|] == wire;
  }

  /** Sessions are opened before use, commit at most once, and see nothing but a close afterwards. */
  ghost predicate Disciplined(wire: seq<Event>) {
    && (forall i, j :: 0 <= i < j < |wire| && wire[i].Commits? && (wire[j].Commits? || wire[j].Uploads?) ==>
         wire[i].session != wire[j].session)
    && (forall j :: 0 <= j < |wire| && (wire[j].Commits? || wire[j].Uploads?) ==>
         exists i :: 0 <= i < j && wire[i] == Opened(wire[j].session))
  }

  /** The session may still be used: it was opened and has not committed. */
  ghost predicate Usable(wire: seq<Event>, session: nat) {
    && (exists i :: 0 <= i < |wire| && wire[i] == Opened(session))
    && (forall i :: 0 <= i < |wire| && wire[i].Commits? ==> wire[i].session != session)
  }

  lemma UseKeepsDiscipline(wire: seq<Event>, e: Event)
    requires Disciplined(wire) && (e.Opened? || e.Closed? || Usable(wire, e.session))
    ensures Disciplined(wire + [e])
  {
    var more := wire + [e];
    forall j | 0 <= j < |more| && (more[j].Commits? || more[j].Uploads?)
      ensures exists i :: 0 <= i < j && more[i] == Opened(more[j].session)
    {
      if j < |wire| {
        var i :| 0 <= i < j && wire[i] == Opened(wire[j].session);
        assert more[i] == Opened(more[j].session);
      } else {
        var i :| 0 <= i < |wire| && wire[i] == Opened(e.session);
        assert more[i] == Opened(more[j].session);
      }
    }
  }

  lemma StillUsable(wire: seq<Event>, e: Event, session: nat)
    requires Usable(wire, session) && !e.Commits?
    ensures Usable(wire + [e], session)
  {
    var i :| 0 <= i < |wire| && wire[i] == Opened(session);
    assert (wire + [e])[i] == Opened(session);
  }

  lemma FreshUsable(wire: seq<Event>, session: nat)
    requires forall i :: 0 <= i < |wire| ==> wire[i].session < session
    ensures Usable(wire + [Opened(session)], session)
  {
    assert (wire + [Opened(session)])[|wire|] == Opened(session);
  }

  /** The batch's bundles with their details, for the merge. */
  method DetailsOf(info: Info, batch: seq<Task>) returns (entries: seq<(string, Detail)>)
    ensures EntryMap(entries) == BatchDetails(info, batch)
    ensures entries == [] ==> BatchDetails(info, batch) == map[]
  {
    entries := [];
    for k := 0 to |batch|
      invariant EntryMap(entries) == BatchDetails(info, batch[..k])
    {
      var name := batch[k].path;
      assert batch[..k + 1] == batch[..k] + [batch[k]];
      PathsAppend(batch[..k], [batch[k]]);
      assert Paths([batch[k]]) == {name};
      if name in info.bundles {
        var more := entries + [(name, info.bundles[name])];
        assert more[..|more| - 1] == entries;
        entries := more;
      }
      assert EntryMap(entries) == BatchDetails(info, batch[..k + 1]);
    }
    assert batch[..|batch|] == batch;
  }

  class Uploader {
    const c: Config
    const info: Info
    const skipped: seq<Task>
    const snapshot: SnapshotFile

    var batch: seq<Art>
    var batchBytes: nat
    var processedAll: set<string>
    var firstPending: bool
    var sessionOpt: Option<nat>
    var nextSession: nat
    var wire: seq<Event>
    var mergeFailed: bool
    ghost var batches: seq<seq<Art>>

    ghost predicate WireOk()
      reads this
    {
      && Disciplined(wire)
      && (forall i :: 0 <= i < |wire| ==> wire[i].session < nextSession)
      && (sessionOpt.Some? ==> sessionOpt.value < nextSession && Usable(wire, sessionOpt.value))
    }

    ghost predicate Valid()
      reads this, snapshot
    {
      && WireOk()
      && batchBytes == Measured(batch)
      && (firstPending <==> batches == [])
      && CommitsIn(wire) == CommitsOfBatches(skipped, batches) && UploadsIn(wire) == TasksOfAll(batches)
      && processedAll == Paths(TasksOf(Flatten(batches)))
      && (!mergeFailed ==> Resumable(c.codec, snapshot.file, info, processedAll))
    }

    constructor (c: Config, info: Info, skipped: seq<Task>, snapshot: SnapshotFile)
      ensures Valid() && batches == [] && batch == [] && !mergeFailed
      ensures this.c == c && this.info == info && this.skipped == skipped && this.snapshot == snapshot
    {
      this.c, this.info, this.skipped, this.snapshot := c, info, skipped, snapshot;
      batch, batchBytes, processedAll, firstPending := [], 0, {}, true;
      sessionOpt, nextSession, wire, mergeFailed, batches := None, 0, [], false, [];
    }

    method Record(e: Event)
      requires WireOk() && e.session < nextSession
      requires e.Opened? || e.Closed? || Usable(wire, e.session)
      requires e.Commits? ==> sessionOpt.None?
      modifies `wire
      ensures WireOk() && wire == old(wire) + [e]
      ensures CommitsIn(wire) == old(CommitsIn(wire)) + if e.Commits? then [e.msg] else []
      ensures UploadsIn(wire) == old(UploadsIn(wire)) + if e.Uploads? then [e.tasks] else []
    {
      UseKeepsDiscipline(wire, e);
      CommitsInSnoc(wire, e);
      if sessionOpt.Some? {
        StillUsable(wire, e, sessionOpt.value);
      }
      wire := wire + [e];
    }

    /** A session is reused if one is open, else a new one is connected. */
    method Connect() returns (ok: bool)
      requires WireOk()
      modifies `wire, `sessionOpt, `nextSession
      ensures WireOk() && CommitsIn(wire) == old(CommitsIn(wire)) && UploadsIn(wire) == old(UploadsIn(wire))
      ensures ok ==> sessionOpt.Some?
    {
      if sessionOpt.Some? {
        return true;
      }
      var connected: bool := *;
      if !connected {
        return false;
      }
      var id := nextSession;
      nextSession := nextSession + 1;
      FreshUsable(wire, id);
      Record(Opened(id));
      sessionOpt := Some(id);
      return true;
    }

    /** COMMIT on the held session, which is given up in any case, then close it. */
    method CommitAndClose(msg: CommitMsg) returns (ok: bool)
      requires WireOk() && sessionOpt.Some?
      modifies `wire, `sessionOpt
      ensures WireOk() && sessionOpt.None?
      ensures ok ==> CommitsIn(wire) == old(CommitsIn(wire)) + [msg] && UploadsIn(wire) == old(UploadsIn(wire))
      ensures ok ==> wire == old(wire) + [Commits(old(sessionOpt).value, msg), Closed(old(sessionOpt).value)]
    {
      hide Disciplined, Usable, CommitsIn, UploadsIn;
      var id := sessionOpt.value;
      sessionOpt := None;
      Record(Commits(id, msg));
      var acknowledged: bool := *;
      if !acknowledged {
        return false;
      }
      Record(Closed(id));
      return true;
    }

    method MergeBatch(tasks: seq<Task>)
      requires Faithful(c.codec)
      requires !mergeFailed ==> Resumable(c.codec, snapshot.file, info, processedAll)
      modifies `mergeFailed, snapshot
      ensures !mergeFailed ==> Resumable(c.codec, snapshot.file, info, processedAll + Paths(tasks))
    {
      var entries := DetailsOf(info, tasks);
      if entries == [] {
        if !mergeFailed { NothingToMerge(c.codec, snapshot.file, info, processedAll, tasks); }
        return;
      }
      var writeFails, renameFails: bool := *, *;
      ghost var before := snapshot.file;
      var merged := snapshot.Merge(c.codec, info.version, info.os, entries, writeFails, renameFails);
      if !merged {
        mergeFailed := true;
      } else if !mergeFailed {
        MergeMakesResumable(c.codec, before, snapshot.file, info, processedAll, tasks);
      }
    }

    /** Upload the batch on the held or a new session and COMMIT it there. */
    method UploadAndCommit(tasks: seq<Task>) returns (ok: bool)
      requires WireOk()
      modifies `wire, `sessionOpt, `nextSession, `firstPending
      ensures WireOk()
      ensures ok ==> CommitsIn(wire) == old(CommitsIn(wire)) + [BatchCommit(old(firstPending), skipped, tasks)]
      ensures ok ==> UploadsIn(wire) == old(UploadsIn(wire)) + [tasks] && !firstPending
      ensures ok ==> EndsWithOneSession(wire, tasks, BatchCommit(old(firstPending), skipped, tasks))
    {
      hide Disciplined, Usable, CommitsIn, UploadsIn, BatchCommit;
      ok := Connect();
      if !ok { return; }
      var uploaded: bool := *;
      Record(Uploads(sessionOpt.value, tasks));
      if !uploaded { return false; }
      var first, id := firstPending, sessionOpt.value;
      firstPending := false;
      ok := CommitAndClose(BatchCommit(first, skipped, tasks));
      if ok {
        assert wire[|wire| - 3] == Uploads(id, tasks);
      }
    }

    /** Upload, COMMIT, merge into the snapshot, clean up; the batch is retired only if all of it worked. */
    method FlushBatch() returns (ok: bool)
      requires Valid() && Faithful(c.codec)
      modifies this, snapshot
      ensures WireOk()
      ensures ok ==> Valid() && batch == []
      ensures ok ==> batches == if old(batch) == [] then old(batches) else old(batches) + [old(batch)]
    {
      hide Disciplined, Usable, Resumable, CommitsIn, UploadsIn, TasksOfAll, CommitsOfBatches, Paths, TasksOf, Flatten, BatchCommit, Faithful;
      if batch == [] {
        return true;
      }
      var tasks := TasksOf(batch);
      ok := UploadAndCommit(tasks);
      if !ok { return; }
      MergeBatch(tasks);
      var cleaned: bool := *;
      if !cleaned { return false; }
      RetireBatch(skipped, batches, batch);
      processedAll := processedAll + Paths(tasks);
      batches := batches + [batch];
      batch, batchBytes := [], 0;
    }

    method FlushMetadataOnly() returns (ok: bool)
      requires Valid() && batches == [] && batch == []
      modifies this
      ensures WireOk() && batches == [] && batch == []
      ensures snapshot.file == old(snapshot.file) && processedAll == old(processedAll) && mergeFailed == old(mergeFailed)
      ensures ok ==> CommitsIn(wire) == CommitsFor(skipped, []) && UploadsIn(wire) == old(UploadsIn(wire))
    {
      hide Disciplined, Usable, Resumable, CommitsIn, UploadsIn, TasksOfAll, CommitsOfBatches, Paths, TasksOf, Flatten, Measured;
      NoCommits(skipped);
      firstPending := false;
      if skipped == [] {
        if sessionOpt.Some? {
          Record(Closed(sessionOpt.value));
          sessionOpt := None;
        }
        return true;
      }
      ok := Connect();
      if !ok { return; }
      ok := CommitAndClose(MetaCommit(skipped));
    }

    /** The uploader's whole life, from a fresh state to its result. */
    method Run(received: seq<Art>) returns (ok: bool)
      requires Valid() && batches == [] && batch == [] && Faithful(c.codec)
      modifies this, snapshot
      ensures Disciplined(wire)
      ensures ok ==> batches == AllBatches(c, received) && CommitsIn(wire) == CommitsFor(skipped, batches)
      ensures ok ==> UploadsIn(wire) == TasksOfAll(batches)
      ensures ok ==> Flatten(batches) == received && IsCut(c, batches)
      ensures ok ==> processedAll == Paths(TasksOf(received))
      ensures ok && !mergeFailed ==> Resumable(c.codec, snapshot.file, info, processedAll)
    {
      hide Disciplined, Usable, Resumable, CommitsIn, UploadsIn, TasksOfAll, CommitsOfBatches, Paths, TasksOf, IsCut, BatchCommit, Faithful, Measured, Flatten, Split;
      BatchesFit(c, received);
      assert Split(c, []) == ([], []) by { NothingSplit(c); }
      var k := 0;
      while k < |received|
        invariant 0 <= k <= |received| && Valid()
        invariant (batches, batch) == Split(c, received[..k])
      {
        OneMore(batch, received[k]);
        SplitSnoc(c, received[..k], received[k]);
        assert received[..k + 1] == received[..k] + [received[k]];
        batchBytes := batchBytes + received[k].bytes;
        batch := batch + [received[k]];
        k := k + 1;
        if ShouldFlush(c, TasksOf(batch), batchBytes) {
          ok := FlushBatch();
          if !ok { return; }
        }
      }
      assert received[..k] == received;
      ok := Finish();
    }

    /** The residual batch, the metadata-only COMMIT, or a goodbye. */
    method Finish() returns (ok: bool)
      requires Valid() && Faithful(c.codec)
      modifies this, snapshot
      ensures Disciplined(wire)
      ensures ok ==> batches == old(batches) + if old(batch) == [] then [] else [old(batch)]
      ensures ok ==> CommitsIn(wire) == CommitsFor(skipped, batches) && UploadsIn(wire) == TasksOfAll(batches)
      ensures ok ==> processedAll == Paths(TasksOf(Flatten(batches)))
      ensures ok && !mergeFailed ==> Resumable(c.codec, snapshot.file, info, processedAll)
    {
      hide Disciplined, Usable, Resumable, CommitsIn, UploadsIn, TasksOfAll, CommitsOfBatches, Paths, TasksOf, BatchCommit, Faithful, Measured, Flatten;
      if batch != [] {
        ok := FlushBatch();
      } else if firstPending {
        ok := FlushMetadataOnly();
      } else {
        if sessionOpt.Some? {
          Record(Closed(sessionOpt.value));
          sessionOpt := None;
        }
        ok := true;
      }
    }
  }

  lemma NothingSplit(c: Config)
    ensures Split(c, []) == ([], [])
  {
  }

  lemma RetireBatch(skipped: seq<Task>, batches: seq<seq<Art>>, batch: seq<Art>)
    ensures CommitsOfBatches(skipped, batches + [batch]) ==
            CommitsOfBatches(skipped, batches) + [BatchCommit(batches == [], skipped, TasksOf(batch))]
    ensures TasksOfAll(batches + [batch]) == TasksOfAll(batches) + [TasksOf(batch)]
    ensures Paths(TasksOf(Flatten(batches + [batch]))) == Paths(TasksOf(Flatten(batches))) + Paths(TasksOf(batch))
  {
    OneMoreCommit(skipped, batches, batch);
    FlattenSnoc(batches, batch);
    assert TasksOf(Flatten(batches) + batch) == TasksOf(Flatten(batches)) + TasksOf(batch);
    PathsAppend(TasksOf(Flatten(batches)), TasksOf(batch));
  }
}
