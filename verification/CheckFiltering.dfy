/**
 The HIP CHECK filter (src/service/poller.rs): chunk by chunk, each task is kept
 or skipped as the gateway answers.
 */
module CheckFiltering {
  import opened Common
  import opened Tasks

  /** One CHECK_BATCH: the gateway's list of (path, skip?) answers, or a failed request. */
  type Gateway = seq<Task> -> Option<seq<(string, bool)>>

  /** Collected into a hash map: a later answer for the same path wins. */
  function Decisions(results: seq<(string, bool)>): map<string, bool> {
    if results == [] then map[]
    else Decisions(results[..|results| - 1])[results[|results| - 1].0 := results[|results| - 1].1]
  }

  /** The paths answered SKIP; a task whose path got no answer is kept. */
  function SkipPaths(decisions: map<string, bool>): set<string> {
    set p | p in decisions && decisions[p]
  }

  function Keep(ts: seq<Task>, skip: set<string>): seq<Task> {
    if ts == [] then [] else
    var rest := Keep(ts[..|ts| - 1], skip);
    if ts[|ts| - 1].path in skip then rest else rest + [ts[|ts| - 1]]
  }

  function Skipped(ts: seq<Task>, skip: set<string>): seq<Task> {
    if ts == [] then [] else
    var rest := Skipped(ts[..|ts| - 1], skip);
    if ts[|ts| - 1].path in skip then rest + [ts[|ts| - 1]] else rest
  }

  /** What the answer list says of a path: its last entry for the path decides, and none means keep. */
  ghost predicate SaysSkip(results: seq<(string, bool)>, path: string) {
    exists i :: 0 <= i < |results| && results[i] == (path, true) && forall j :: i < j < |results| ==> results[j].0 != path
  }

  lemma {:induction false} DecisionsSay(results: seq<(string, bool)>, path: string)
    ensures path in Decisions(results) <==> exists i :: 0 <= i < |results| && results[i].0 == path
    ensures path in SkipPaths(Decisions(results)) <==> SaysSkip(results, path)
  {
    if results != [] {
      var n := |results| - 1;
      var init := results[..n];
      DecisionsSay(init, path);
      assert forall i :: 0 <= i < n ==> init[i] == results[i];
      if results[n].0 == path {
        assert SaysSkip(results, path) <==> results[n].1 by {
          assert results[n].1 ==> results[n] == (path, true);
        }
      } else {
        assert SaysSkip(results, path) <==> SaysSkip(init, path) by {
          if SaysSkip(init, path) {
            var i :| 0 <= i < |init| && init[i] == (path, true) && forall j :: i < j < |init| ==> init[j].0 != path;
            assert results[i] == (path, true);
          }
        }
      }
    }
  }

  /** Kept are the tasks whose path is not to be skipped, skipped the others. */
  lemma {:induction false} FilterIff(ts: seq<Task>, skip: set<string>, t: Task)
    ensures t in Keep(ts, skip) <==> t in ts && t.path !in skip
    ensures t in Skipped(ts, skip) <==> t in ts && t.path in skip
  {
    if ts != [] {
      FilterIff(ts[..|ts| - 1], skip, t);
      assert t in ts <==> t in ts[..|ts| - 1] || t == ts[|ts| - 1];
    }
  }

  lemma {:induction false} FilterAppend(a: seq<Task>, b: seq<Task>, skip: set<string>)
    ensures Keep(a + b, skip) == Keep(a, skip) + Keep(b, skip)
    ensures Skipped(a + b, skip) == Skipped(a, skip) + Skipped(b, skip)
    decreases |b|
  {
    if b == [] {
      assert a + b == a;
    } else {
      assert (a + b)[..|a + b| - 1] == a + b[..|b| - 1];
      FilterAppend(a, b[..|b| - 1], skip);
    }
  }

  /** Filtering depends on nothing but the answers for the paths at hand. */
  lemma {:induction false} FilterAgrees(ts: seq<Task>, f: set<string>, g: set<string>)
    requires forall i :: 0 <= i < |ts| ==> (ts[i].path in f <==> ts[i].path in g)
    ensures Keep(ts, f) == Keep(ts, g) && Skipped(ts, f) == Skipped(ts, g)
  {
    if ts != [] {
      FilterAgrees(ts[..|ts| - 1], f, g);
    }
  }

  /** The kept and the skipped tasks together are the planned ones, nothing lost or duplicated. */
  ghost predicate Splits(ts: seq<Task>, keep: seq<Task>, skipped: seq<Task>) {
    multiset(keep) + multiset(skipped) == multiset(ts) && |keep| + |skipped| == |ts|
  }

  lemma {:induction false} FilterPartitions(ts: seq<Task>, skip: set<string>)
    ensures Splits(ts, Keep(ts, skip), Skipped(ts, skip))
  {
    if ts != [] {
      FilterPartitions(ts[..|ts| - 1], skip);
      assert ts == ts[..|ts| - 1] + [ts[|ts| - 1]];
    }
  }

  datatype Filtered = Filtered(keep: seq<Task>, skipped: seq<Task>)

  function Prepend(keep: seq<Task>, skipped: seq<Task>, rest: Option<Filtered>): Option<Filtered> {
    if rest.None? then None else Some(Filtered(keep + rest.value.keep, skipped + rest.value.skipped))
  }

  /** Chunk by chunk, each decided by the gateway's answer to that chunk. */
  function ChunkedFilter(gateway: Gateway, ts: seq<Task>, size: nat): Option<Filtered>
    requires size >= 1
    decreases |ts|
  {
    if ts == [] then Some(Filtered([], [])) else
    var n := Min(size, |ts|);
    match gateway(ts[..n])
    case None => None
    case Some(results) =>
      var skip := SkipPaths(Decisions(results));
      Prepend(Keep(ts[..n], skip), Skipped(ts[..n], skip), ChunkedFilter(gateway, ts[n..], size))
  }

  /** Whatever the gateway answers, nothing planned is lost or duplicated by chunking. */
  lemma {:induction false} ChunkedFilterPartitions(gateway: Gateway, ts: seq<Task>, size: nat)
    requires size >= 1 && ChunkedFilter(gateway, ts, size).Some?
    ensures var f := ChunkedFilter(gateway, ts, size).value;
            Splits(ts, f.keep, f.skipped)
    decreases |ts|
  {
    hide Splits, Keep, Skipped, SkipPaths, Decisions;
    if ts == [] {
      EmptySplits();
    } else {
      var n := Min(size, |ts|);
      var skip := SkipPaths(Decisions(gateway(ts[..n]).value));
      FilterPartitions(ts[..n], skip);
      ChunkedFilterPartitions(gateway, ts[n..], size);
      var rest := ChunkedFilter(gateway, ts[n..], size).value;
      JoinPartitions(ts[..n], Keep(ts[..n], skip), Skipped(ts[..n], skip), ts[n..], rest.keep, rest.skipped);
      assert ts == ts[..n] + ts[n..];
    }
  }

  lemma EmptySplits()
    ensures Splits([], [], [])
  {
  }

  lemma JoinPartitions(ts: seq<Task>, k: seq<Task>, s: seq<Task>, ts': seq<Task>, k': seq<Task>, s': seq<Task>)
    requires Splits(ts, k, s) && Splits(ts', k', s')
    ensures Splits(ts + ts', k + k', s + s')
  {
  }

  /** The gateway answers every item of every request, by the item alone. */
  ghost predicate AnswersPerTask(gateway: Gateway, skip: set<string>) {
    forall chunk: seq<Task> ::
      && gateway(chunk).Some?
      && forall i :: 0 <= i < |chunk| ==>
           (SaysSkip(gateway(chunk).value, chunk[i].path) <==> chunk[i].path in skip)
  }

  /** Chunking is invisible: any chunk size gives the one-pass filter, order preserved. */
  lemma {:induction false} ChunkingIsInvisible(gateway: Gateway, skip: set<string>, ts: seq<Task>, size: nat)
    requires size >= 1 && AnswersPerTask(gateway, skip)
    ensures ChunkedFilter(gateway, ts, size) == Some(Filtered(Keep(ts, skip), Skipped(ts, skip)))
    decreases |ts|
  {
    hide Keep, Skipped, SkipPaths, Decisions, SaysSkip;
    if ts == [] {
      EmptyFilter(skip);
    } else {
      var n := Min(size, |ts|);
      var chunk := ts[..n];
      ChunkingIsInvisible(gateway, skip, ts[n..], size);
      forall i | 0 <= i < n ensures chunk[i].path in SkipPaths(Decisions(gateway(chunk).value)) <==> chunk[i].path in skip {
        DecisionsSay(gateway(chunk).value, chunk[i].path);
      }
      FilterAgrees(chunk, SkipPaths(Decisions(gateway(chunk).value)), skip);
      assert ts == chunk + ts[n..];
      FilterAppend(chunk, ts[n..], skip);
    }
  }

  /** The requests: chunks of the given size, the last one maybe shorter. */
  function Requests(ts: seq<Task>, size: nat): seq<seq<Task>>
    requires size >= 1
    decreases |ts|
  {
    if ts == [] then [] else if |ts| <= size then [ts] else [ts[..size]] + Requests(ts[size..], size)
  }

  lemma {:induction false} RequestsCover(ts: seq<Task>, size: nat)
    requires size >= 1
    ensures Flatten(Requests(ts, size)) == ts
    ensures forall i :: 0 <= i < |Requests(ts, size)| - 1 ==> |Requests(ts, size)[i]| == size
    ensures ts != [] ==> Requests(ts, size) != [] && 1 <= |Requests(ts, size)[|Requests(ts, size)| - 1]| <= size
    decreases |ts|
  {
    if |ts| > size {
      RequestsCover(ts[size..], size);
      assert ts == ts[..size] + ts[size..];
    } else if ts != [] {
      assert Flatten([ts]) == ts + Flatten<Task>([]) == ts;
    }
  }

  /** The task is skipped exactly if the answer to its request says so, and kept otherwise. */
  ghost predicate Obeyed(gateway: Gateway, request: seq<Task>, keep: seq<Task>, skipped: seq<Task>, t: Task) {
    && gateway(request).Some?
    && (t in keep <==> !SaysSkip(gateway(request).value, t.path))
    && (t in skipped <==> SaysSkip(gateway(request).value, t.path))
  }

  ghost predicate AsAnswered(gateway: Gateway, requests: seq<seq<Task>>, keep: seq<Task>, skipped: seq<Task>) {
    forall k, t :: 0 <= k < |requests| && t in requests[k] ==> Obeyed(gateway, requests[k], keep, skipped, t)
  }

  lemma FirstAsAnswered(gateway: Gateway, ts: seq<Task>, n: nat, rest: Filtered, t: Task)
    requires DistinctPaths(ts) && n <= |ts| && t in ts[..n] && gateway(ts[..n]).Some?
    requires forall u :: u in rest.keep || u in rest.skipped ==> u in ts[n..]
    ensures var skip := SkipPaths(Decisions(gateway(ts[..n]).value));
            Obeyed(gateway, ts[..n], Keep(ts[..n], skip) + rest.keep, Skipped(ts[..n], skip) + rest.skipped, t)
  {
    hide SaysSkip, SkipPaths, Decisions;
    var results := gateway(ts[..n]).value;
    DecisionsSay(results, t.path);
    FilterIff(ts[..n], SkipPaths(Decisions(results)), t);
    var i :| 0 <= i < n && ts[i] == t;
    assert forall j :: 0 <= j < |ts[n..]| ==> ts[n..][j] == ts[n + j];
    assert t !in ts[n..];
  }

  lemma {:induction false} FilteredAreTasks(gateway: Gateway, ts: seq<Task>, size: nat, t: Task)
    requires size >= 1 && ChunkedFilter(gateway, ts, size).Some?
    ensures t in ChunkedFilter(gateway, ts, size).value.keep || t in ChunkedFilter(gateway, ts, size).value.skipped ==> t in ts
  {
    ChunkedFilterPartitions(gateway, ts, size);
    hide ChunkedFilter;
    var f := ChunkedFilter(gateway, ts, size).value;
    assert t in multiset(f.keep) + multiset(f.skipped) <==> t in multiset(ts);
  }

  /** Whatever the gateway answers: every task is kept or skipped as the last answer for it to its own request says. */
  lemma {:induction false} FilterDoesAsAnswered(gateway: Gateway, ts: seq<Task>, size: nat)
    requires size >= 1 && DistinctPaths(ts) && ChunkedFilter(gateway, ts, size).Some?
    ensures var f := ChunkedFilter(gateway, ts, size).value; AsAnswered(gateway, Requests(ts, size), f.keep, f.skipped)
    decreases |ts|
  {
    hide SaysSkip, Keep, Skipped, SkipPaths, Decisions, AsAnswered, Obeyed, DistinctPaths;
    var n := Min(size, |ts|);
    RestIsDistinct(gateway, ts, n);
    if ts != [] {
      FilterDoesAsAnswered(gateway, ts[n..], size);
      var (f, rest) := (ChunkedFilter(gateway, ts, size).value, ChunkedFilter(gateway, ts[n..], size).value);
      var skip := SkipPaths(Decisions(gateway(ts[..n]).value));
      forall u ensures u in rest.keep || u in rest.skipped ==> u in ts[n..] { FilteredAreTasks(gateway, ts[n..], size, u); }
      assert Requests(ts, size) == [ts[..n]] + Requests(ts[n..], size) by { assert |ts| <= size ==> ts[..n] == ts && ts[n..] == []; }
      forall t | t in ts[..n] ensures Obeyed(gateway, ts[..n], f.keep, f.skipped, t) {
        FirstAsAnswered(gateway, ts, n, rest, t);
      }
      forall k, t | 0 <= k < |Requests(ts[n..], size)| && t in Requests(ts[n..], size)[k]
        ensures t !in Keep(ts[..n], skip) && t !in Skipped(ts[..n], skip)
      {
        LaterIsElsewhere(ts, n, size, k, skip, t);
      }
      OneMoreAnswered(gateway, ts[..n], Requests(ts[n..], size), Filtered(Keep(ts[..n], skip), Skipped(ts[..n], skip)), rest);
    }
  }

  lemma RestIsDistinct(gateway: Gateway, ts: seq<Task>, n: nat)
    requires DistinctPaths(ts) && n <= |ts|
    ensures DistinctPaths(ts[n..]) && AsAnswered(gateway, [], [], [])
  {
  }

  lemma OneMoreAnswered(gateway: Gateway, first: seq<Task>, others: seq<seq<Task>>, a: Filtered, b: Filtered)
    requires AsAnswered(gateway, others, b.keep, b.skipped)
    requires forall t :: t in first ==> Obeyed(gateway, first, a.keep + b.keep, a.skipped + b.skipped, t)
    requires forall k, t :: 0 <= k < |others| && t in others[k] ==> t !in a.keep && t !in a.skipped
    ensures AsAnswered(gateway, [first] + others, a.keep + b.keep, a.skipped + b.skipped)
  {
    hide SaysSkip;
    var all := [first] + others;
    forall k, t | 0 <= k < |all| && t in all[k] ensures Obeyed(gateway, all[k], a.keep + b.keep, a.skipped + b.skipped, t) {
      if k > 0 {
        assert all[k] == others[k - 1];
        assert Obeyed(gateway, others[k - 1], b.keep, b.skipped, t);
      } else {
        assert all[k] == first;
      }
    }
  }

  lemma LaterIsElsewhere(ts: seq<Task>, n: nat, size: nat, k: nat, skip: set<string>, t: Task)
    requires size >= 1 && DistinctPaths(ts) && n <= |ts| && k < |Requests(ts[n..], size)| && t in Requests(ts[n..], size)[k]
    ensures t !in Keep(ts[..n], skip) && t !in Skipped(ts[..n], skip)
  {
    RequestsCover(ts[n..], size);
    InFlat(Requests(ts[n..], size), k, t);
    hide Requests, Keep, Skipped, Flatten;
    FilterIff(ts[..n], skip, t);
    var j :| 0 <= j < |ts[n..]| && ts[n..][j] == t;
    assert ts[n + j] == t;
  }

  lemma {:induction false} InFlat(parts: seq<seq<Task>>, k: nat, t: Task)
    requires k < |parts| && t in parts[k]
    ensures t in Flatten(parts)
  {
    if k > 0 { InFlat(parts[1..], k - 1, t); }
  }

  /** The hash map of skipped bundles that a list of skipped tasks leaves behind. */
  function SkipMap(ts: seq<Task>): map<string, string> {
    if ts == [] then map[] else SkipMap(ts[..|ts| - 1])[ts[|ts| - 1].path := ts[|ts| - 1].hash]
  }

  lemma SkipMapEmpty()
    ensures SkipMap([]) == map[]
  {
  }

  lemma SkipMapSnoc(ts: seq<Task>, t: Task)
    ensures SkipMap(ts + [t]) == SkipMap(ts)[t.path := t.hash]
  {
    assert (ts + [t])[..|ts|] == ts;
  }

  /** For tasks with distinct paths the map has one entry per skipped task, so the counter is its size. */
  lemma {:induction false} SkipMapCounts(ts: seq<Task>)
    requires DistinctPaths(ts)
    ensures |SkipMap(ts)| == |ts|
    ensures forall i :: 0 <= i < |ts| ==> ts[i].path in SkipMap(ts) && SkipMap(ts)[ts[i].path] == ts[i].hash
    ensures forall p :: p in SkipMap(ts) ==> exists i :: 0 <= i < |ts| && ts[i].path == p
  {
    SkipMapEmpty();
    hide SkipMap;
    if ts != [] {
      var init, last := ts[..|ts| - 1], ts[|ts| - 1];
      SkipMapCounts(init);
      SkipMapSnoc(init, last);
      assert ts == init + [last];
      assert forall i :: 0 <= i < |init| ==> ts[i] == init[i];
      assert last.path !in SkipMap(init);
      assert SkipMap(ts).Keys == SkipMap(init).Keys + {last.path};
    }
  }

  lemma {:induction false} SkippedDistinct(ts: seq<Task>, skip: set<string>)
    requires DistinctPaths(ts)
    ensures DistinctPaths(Skipped(ts, skip))
    ensures forall i :: 0 <= i < |Skipped(ts, skip)| ==> Skipped(ts, skip)[i] in ts
  {
    if ts != [] {
      SkippedDistinct(ts[..|ts| - 1], skip);
    }
  }

  /** Chunking skips each planned path at most once. */
  lemma {:induction false} ChunkedSkippedDistinct(gateway: Gateway, ts: seq<Task>, size: nat)
    requires size >= 1 && DistinctPaths(ts) && ChunkedFilter(gateway, ts, size).Some?
    ensures DistinctPaths(ChunkedFilter(gateway, ts, size).value.skipped)
    ensures forall t :: t in ChunkedFilter(gateway, ts, size).value.skipped ==> t in ts
    decreases |ts|
  {
    if ts != [] {
      var n := Min(size, |ts|);
      var skip := SkipPaths(Decisions(gateway(ts[..n]).value));
      ChunkedSkippedDistinct(gateway, ts[n..], size);
      SkippedDistinct(ts[..n], skip);
      hide Keep, Skipped, SkipPaths, Decisions;
      ConcatDistinct(ts, n, Skipped(ts[..n], skip), ChunkedFilter(gateway, ts[n..], size).value.skipped);
    }
  }

  lemma ConcatDistinct(ts: seq<Task>, n: nat, a: seq<Task>, b: seq<Task>)
    requires DistinctPaths(ts) && n <= |ts| && DistinctPaths(a) && DistinctPaths(b)
    requires (forall i :: 0 <= i < |a| ==> a[i] in ts[..n]) && (forall t :: t in b ==> t in ts[n..])
    ensures DistinctPaths(a + b) && forall t :: t in a + b ==> t in ts
  {
    forall i, j | 0 <= i < |a| && 0 <= j < |b| ensures a[i].path != b[j].path {
      assert a[i] in ts[..n] && b[j] in ts[n..];
      var x :| 0 <= x < n && ts[x] == a[i];
      var y :| 0 <= y < |ts[n..]| && ts[n..][y] == b[j];
      assert ts[n + y] == b[j];
    }
  }

  lemma StepFilter(chunk: seq<Task>, k: nat, skip: set<string>)
    requires k < |chunk|
    ensures Keep(chunk[..k + 1], skip) == Keep(chunk[..k], skip) + if chunk[k].path in skip then [] else [chunk[k]]
    ensures Skipped(chunk[..k + 1], skip) == Skipped(chunk[..k], skip) + if chunk[k].path in skip then [chunk[k]] else []
  {
    assert chunk[..k + 1][..k] == chunk[..k];
  }

  /** One chunk of the loop: each task is counted and recorded, or kept. */
  method FilterChunk(chunk: seq<Task>, decisions: map<string, bool>, ghost skipped0: seq<Task>,
                     counter0: nat, bundles0: map<string, string>)
    returns (keep: seq<Task>, ghost skipped: seq<Task>, counter: nat, bundles: map<string, string>)
    requires counter0 == |skipped0| && bundles0 == SkipMap(skipped0)
    ensures keep == Keep(chunk, SkipPaths(decisions))
    ensures skipped == skipped0 + Skipped(chunk, SkipPaths(decisions))
    ensures counter == |skipped| && bundles == SkipMap(skipped)
  {
    hide SkipMap, Keep, Skipped;
    ghost var skip := SkipPaths(decisions);
    keep, skipped, counter, bundles := [], skipped0, counter0, bundles0;
    ghost var newly: seq<Task> := [];
    EmptyFilter(skip);
    assert chunk[..0] == [];
    for k := 0 to |chunk|
      invariant keep == Keep(chunk[..k], skip)
      invariant newly == Skipped(chunk[..k], skip) && skipped == skipped0 + newly
      invariant counter == |skipped| && bundles == SkipMap(skipped)
    {
      var task := chunk[k];
      StepFilter(chunk, k, skip);
      if task.path in decisions && decisions[task.path] {
        SkipMapSnoc(skipped, task);
        counter := counter + 1;
        bundles := bundles[task.path := task.hash];
        newly := newly + [task];
        assert skipped + [task] == skipped0 + newly;
        skipped := skipped + [task];
      } else {
        keep := keep + [task];
      }
    }
    assert chunk[..|chunk|] == chunk;
  }

  lemma EmptyFilter(skip: set<string>)
    ensures Keep([], skip) == [] && Skipped([], skip) == []
  {
  }

  function Both(a: Filtered, b: Filtered): Filtered { Filtered(a.keep + b.keep, a.skipped + b.skipped) }

  /** What the chunks before the first failed request decided. */
  function FilterSoFar(gateway: Gateway, ts: seq<Task>, size: nat): Filtered
    requires size >= 1
    decreases |ts|
  {
    if ts == [] then Filtered([], []) else
    var n := Min(size, |ts|);
    match gateway(ts[..n])
    case None => Filtered([], [])
    case Some(results) =>
      var skip := SkipPaths(Decisions(results));
      Both(Filtered(Keep(ts[..n], skip), Skipped(ts[..n], skip)), FilterSoFar(gateway, ts[n..], size))
  }

  /** How many tasks those chunks hold. */
  function AnsweredCount(gateway: Gateway, ts: seq<Task>, size: nat): (m: nat)
    requires size >= 1
    ensures m <= |ts|
    decreases |ts|
  {
    if ts == [] then 0 else
    var n := Min(size, |ts|);
    if gateway(ts[..n]).None? then 0 else n + AnsweredCount(gateway, ts[n..], size)
  }

  /** A failed filter is the filter of the tasks answered before the failure. */
  lemma {:induction false} SoFarIsAnsweredPart(gateway: Gateway, ts: seq<Task>, size: nat)
    requires size >= 1
    ensures var m := AnsweredCount(gateway, ts, size);
            && ChunkedFilter(gateway, ts[..m], size) == Some(FilterSoFar(gateway, ts, size))
            && (ChunkedFilter(gateway, ts, size).Some? <==> m == |ts|)
    decreases |ts|
  {
    hide Keep, Skipped, SkipPaths, Decisions;
    if ts != [] {
      var n, m := Min(size, |ts|), AnsweredCount(gateway, ts, size);
      SoFarIsAnsweredPart(gateway, ts[n..], size);
      if gateway(ts[..n]).Some? {
        assert ts[..m][..n] == ts[..n] && ts[..m][n..] == ts[n..][..m - n];
        assert Min(size, m) == n;
      }
    }
  }

  /** The first chunk of what is left. */
  lemma NextChunk(gateway: Gateway, ts: seq<Task>, size: nat)
    requires size >= 1 && ts != []
    ensures var n := Min(size, |ts|);
            match gateway(ts[..n])
            case None => FilterSoFar(gateway, ts, size) == Filtered([], []) && AnsweredCount(gateway, ts, size) == 0
            case Some(results) =>
              var skip := SkipPaths(Decisions(results));
              && FilterSoFar(gateway, ts, size)
                 == Both(Filtered(Keep(ts[..n], skip), Skipped(ts[..n], skip)), FilterSoFar(gateway, ts[n..], size))
              && AnsweredCount(gateway, ts, size) == n + AnsweredCount(gateway, ts[n..], size)
  {
  }

  lemma NoChunk(gateway: Gateway, size: nat)
    requires size >= 1
    ensures FilterSoFar(gateway, [], size) == Filtered([], []) && AnsweredCount(gateway, [], size) == 0
  {
  }

  lemma PrefixAsAnswered(gateway: Gateway, ts: seq<Task>, size: nat)
    requires size >= 1 && DistinctPaths(ts)
    ensures var part := ts[..AnsweredCount(gateway, ts, size)];
            var f := ChunkedFilter(gateway, part, size);
            f.Some? && AsAnswered(gateway, Requests(part, size), f.value.keep, f.value.skipped)
  {
    hide AsAnswered, Requests;
    SoFarIsAnsweredPart(gateway, ts, size);
    FilterDoesAsAnswered(gateway, ts[..AnsweredCount(gateway, ts, size)], size);
  }

  lemma BothTwice(a: Filtered, b: Filtered, c: Filtered)
    ensures Both(a, Both(b, c)) == Both(Both(a, b), c)
    ensures Both(Filtered([], []), c) == c && Both(c, Filtered([], [])) == c
  {
    assert a.keep + (b.keep + c.keep) == a.keep + b.keep + c.keep;
    assert a.skipped + (b.skipped + c.skipped) == a.skipped + b.skipped + c.skipped;
  }

  /**
   `HipCheckFilter::filter`: kept tasks, the skip counter and the skipped paths
   with their hashes.  When a request fails, the skips already counted and
   recorded are those of the tasks answered before it, and stay.
   */
  method CheckFilter(gateway: Gateway, tasks: seq<Task>, batchSize: nat)
    returns (ok: bool, keep: seq<Task>, skippedCounter: nat, skippedBundles: map<string, string>)
    requires batchSize >= 1
    ensures ok <==> AnsweredCount(gateway, tasks, batchSize) == |tasks|
    ensures var f := ChunkedFilter(gateway, tasks[..AnsweredCount(gateway, tasks, batchSize)], batchSize);
            && f.Some? && keep == f.value.keep
            && skippedCounter == |f.value.skipped| && skippedBundles == SkipMap(f.value.skipped)
            && (DistinctPaths(tasks) ==>
                 AsAnswered(gateway, Requests(tasks[..AnsweredCount(gateway, tasks, batchSize)], batchSize), keep, f.value.skipped))
  {
    hide AsAnswered, DistinctPaths, Requests, SkipMap, Keep, Skipped, SkipPaths, Decisions, ChunkedFilter, FilterSoFar, AnsweredCount;
    if DistinctPaths(tasks) { PrefixAsAnswered(gateway, tasks, batchSize); }
    SoFarIsAnsweredPart(gateway, tasks, batchSize);
    ok, keep, skippedCounter, skippedBundles := true, [], 0, map[];
    SkipMapEmpty();
    ghost var skipped: seq<Task> := [];
    ghost var whole := FilterSoFar(gateway, tasks, batchSize);
    var start := 0;
    assert tasks[0..] == tasks;
    BothTwice(whole, whole, whole);
    while start < |tasks|
      invariant 0 <= start <= |tasks|
      invariant skippedCounter == |skipped| && skippedBundles == SkipMap(skipped)
      invariant whole == Both(Filtered(keep, skipped), FilterSoFar(gateway, tasks[start..], batchSize))
      invariant AnsweredCount(gateway, tasks, batchSize) == start + AnsweredCount(gateway, tasks[start..], batchSize)
    {
      var n := Min(batchSize, |tasks| - start);
      ghost var rest := tasks[start..];
      assert rest[..n] == tasks[start..start + n] && rest[n..] == tasks[start + n..];
      NextChunk(gateway, rest, batchSize);
      ghost var before := Filtered(keep, skipped);
      BothTwice(before, before, before);
      var results := gateway(tasks[start..start + n]);
      if results.None? {
        ok := false;
        return;
      }
      var more;
      more, skipped, skippedCounter, skippedBundles :=
        FilterChunk(tasks[start..start + n], Decisions(results.value), skipped, skippedCounter, skippedBundles);
      BothTwice(before, Filtered(more, Skipped(tasks[start..start + n], SkipPaths(Decisions(results.value)))),
                FilterSoFar(gateway, tasks[start + n..], batchSize));
      keep := keep + more;
      start := start + n;
    }
    assert tasks[start..] == [];
    NoChunk(gateway, batchSize);
    BothTwice(whole, whole, Filtered(keep, skipped));
  }
}
