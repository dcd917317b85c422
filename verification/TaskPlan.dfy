/**
 The planned task list (`build_download_tasks` in src/core/asset_execution.rs).
 Regular expressions are predicates on bundle names and hash maps are visited
 in an arbitrary order.
 */
module TaskPlan {
  import opened Common
  import opened BundleDiff
  import opened Tasks
  import Decimal

  const USIZE_MAX: nat := 0xFFFF_FFFF_FFFF_FFFF

  /** Compiled filter patterns and the provider, as predicates on bundle names. */
  datatype Rules = Rules(skip: string -> bool, startApp: string -> bool, onDemand: string -> bool,
                         priority: string -> Option<nat>, nuverse: bool)

  function HashOf(r: Rules, d: Detail): string {
    if r.nuverse then Decimal.ToString(d.crc) else d.hash
  }

  function TaskFor(r: Rules, name: string, d: Detail): Task {
    Task(name, HashOf(r, d), d.fileSize, match r.priority(name) case Some(p) => p case None => USIZE_MAX)
  }

  predicate Wanted(r: Rules, name: string, d: Detail) {
    && !r.skip(name)
    && (match d.category
        case StartApp => r.startApp(name)
        case OnDemand => r.onDemand(name)
        case OtherCategory(_) => false)
  }

  predicate Eligible(r: Rules, bundles: map<string, Detail>, record: map<string, string>, name: string) {
    && name in bundles
    && Wanted(r, name, bundles[name])
    && !(name in record && record[name] == HashOf(r, bundles[name]))
  }

  /** The tasks are exactly those of the eligible bundles, in order of priority then path. */
  ghost predicate IsPlan(r: Rules, bundles: map<string, Detail>, record: map<string, string>, tasks: seq<Task>) {
    && Sorted(tasks)
    && DistinctPaths(tasks)
    && (forall i :: 0 <= i < |tasks| ==>
         Eligible(r, bundles, record, tasks[i].path) && tasks[i] == TaskFor(r, tasks[i].path, bundles[tasks[i].path]))
    && (forall n :: Eligible(r, bundles, record, n) ==> TaskFor(r, n, bundles[n]) in tasks)
  }

  /** There is only one plan, so the order in which the hash map was visited cannot show. */
  lemma PlanIsUnique(r: Rules, bundles: map<string, Detail>, record: map<string, string>, a: seq<Task>, b: seq<Task>)
    requires IsPlan(r, bundles, record, a) && IsPlan(r, bundles, record, b)
    ensures a == b
  {
    forall t ensures t in a <==> t in b {
      if t in a {
        var i :| 0 <= i < |a| && a[i] == t;
        assert TaskFor(r, t.path, bundles[t.path]) in b;
      }
      if t in b {
        var i :| 0 <= i < |b| && b[i] == t;
        assert TaskFor(r, t.path, bundles[t.path]) in a;
      }
    }
    SortedUnique(a, b);
  }

  /** The collected tasks before sorting: those of the eligible names visited so far. */
  ghost predicate Collected(r: Rules, bundles: map<string, Detail>, record: map<string, string>,
                            todo: set<string>, tasks: seq<Task>) {
    && DistinctPaths(tasks)
    && (forall i :: 0 <= i < |tasks| ==>
         && tasks[i].path !in todo
         && Eligible(r, bundles, record, tasks[i].path)
         && tasks[i] == TaskFor(r, tasks[i].path, bundles[tasks[i].path]))
    && (forall n :: Eligible(r, bundles, record, n) && n !in todo ==> TaskFor(r, n, bundles[n]) in tasks)
  }

  method BuildDownloadTasks(r: Rules, info: Info, record: map<string, string>) returns (tasks: seq<Task>)
    ensures IsPlan(r, info.bundles, record, tasks)
  {
    tasks := [];
    var todo := info.bundles.Keys;
    while todo != {}
      invariant todo <= info.bundles.Keys
      invariant Collected(r, info.bundles, record, todo, tasks)
      decreases todo
    {
      var name :| name in todo;
      var detail := info.bundles[name];
      ghost var before := todo;
      todo := todo - {name};
      if r.skip(name) { SkipOne(r, info.bundles, record, before, name, tasks); continue; }
      var matched := match detail.category
                     case StartApp => r.startApp(name)
                     case OnDemand => r.onDemand(name)
                     case OtherCategory(_) => false;
      if !matched { SkipOne(r, info.bundles, record, before, name, tasks); continue; }
      var bundleHash := HashOf(r, detail);
      if name in record && record[name] == bundleHash {
        SkipOne(r, info.bundles, record, before, name, tasks);
        continue;
      }
      var p := r.priority(name);
      CollectOne(r, info.bundles, record, before, name, tasks);
      tasks := tasks + [Task(name, bundleHash, detail.fileSize, if p.Some? then p.value else USIZE_MAX)];
    }
    SortCollected(r, info.bundles, record, tasks);
    tasks := SortTasks(tasks);
  }

  lemma SkipOne(r: Rules, bundles: map<string, Detail>, record: map<string, string>,
                todo: set<string>, name: string, tasks: seq<Task>)
    requires Collected(r, bundles, record, todo, tasks) && !Eligible(r, bundles, record, name)
    ensures Collected(r, bundles, record, todo - {name}, tasks)
  {
  }

  lemma CollectOne(r: Rules, bundles: map<string, Detail>, record: map<string, string>,
                   todo: set<string>, name: string, tasks: seq<Task>)
    requires Collected(r, bundles, record, todo, tasks) && Eligible(r, bundles, record, name) && name in todo
    ensures Collected(r, bundles, record, todo - {name}, tasks + [TaskFor(r, name, bundles[name])])
  {
  }

  lemma SortCollected(r: Rules, bundles: map<string, Detail>, record: map<string, string>, tasks: seq<Task>)
    requires Collected(r, bundles, record, {}, tasks)
    ensures IsPlan(r, bundles, record, SortTasks(tasks))
  {
    var s := SortTasks(tasks);
    SortTasksSorted(tasks);
    forall i | 0 <= i < |s| ensures s[i] in tasks {
      assert s[i] in multiset(s);
    }
    forall i, j | 0 <= i < j < |s| ensures s[i].path != s[j].path {
      NotBeforeItself(s[i]);
      assert s[i] in tasks && s[j] in tasks;
    }
    forall n | Eligible(r, bundles, record, n) ensures TaskFor(r, n, bundles[n]) in s {
      assert TaskFor(r, n, bundles[n]) in multiset(tasks);
    }
  }

  /** What a plan says of one bundle, written out: when it is in, and the task it gives. */
  lemma PlanSays(r: Rules, bundles: map<string, Detail>, record: map<string, string>, tasks: seq<Task>, name: string)
    requires IsPlan(r, bundles, record, tasks) && name in bundles
    ensures var d := bundles[name];
            var hash := if r.nuverse then Decimal.ToString(d.crc) else d.hash;
            && ((exists i :: 0 <= i < |tasks| && tasks[i].path == name) <==>
                 && !r.skip(name)
                 && ((d.category == StartApp && r.startApp(name)) || (d.category == OnDemand && r.onDemand(name)))
                 && (name !in record || record[name] != hash))
            && (forall i :: 0 <= i < |tasks| && tasks[i].path == name ==>
                 && tasks[i].hash == hash && tasks[i].fileSize == d.fileSize
                 && tasks[i].priority == if r.priority(name).Some? then r.priority(name).value else USIZE_MAX)
  {
    if Eligible(r, bundles, record, name) {
      var t := TaskFor(r, name, bundles[name]);
      var i :| 0 <= i < |tasks| && tasks[i] == t;
    }
  }

  /** The order of a plan, written out. */
  lemma PlanOrder(r: Rules, bundles: map<string, Detail>, record: map<string, string>, tasks: seq<Task>, i: nat, j: nat)
    requires IsPlan(r, bundles, record, tasks) && i < j < |tasks|
    ensures tasks[i].priority < tasks[j].priority
            || (tasks[i].priority == tasks[j].priority && ComesFirst(tasks[i].path, tasks[j].path))
  {
    assert Before(tasks[i], tasks[j]);
    StrLessIff(tasks[i].path, tasks[j].path);
  }
}
