/**
 Two walks over a process table: the stack traversal that sums CPU ticks
 (src/core/export_pipeline/implementation/limits.rs) and the breadth-first
 search for descendants used by memory telemetry
 (src/service/memory_telemetry.rs).  Tables may hold duplicate rows and
 cyclic parent links.
 */
module ProcessTree {
  import opened Common
  import opened Bytes

  datatype Row = Row(pid: nat, ppid: nat, ticks: nat)

  const U64_MAX: nat := TWO64 - 1

  predicate Parent(rows: seq<Row>, a: nat, b: nat) { exists k :: 0 <= k < |rows| && rows[k].ppid == a && rows[k].pid == b }

  /** A chain of parent links. */
  ghost predicate IsChain(rows: seq<Row>, chain: seq<nat>) {
    chain != [] && forall i :: 0 <= i < |chain| - 1 ==> Parent(rows, chain[i], chain[i + 1])
  }

  ghost predicate Connects(rows: seq<Row>, root: nat, pid: nat, chain: seq<nat>) {
    IsChain(rows, chain) && chain[0] == root && chain[|chain| - 1] == pid
  }

  ghost predicate Reachable(rows: seq<Row>, root: nat, pid: nat) {
    exists chain: seq<nat> :: Connects(rows, root, pid, chain)
  }

  /** Reachable over at least one link. */
  ghost predicate Descends(rows: seq<Row>, root: nat, pid: nat) {
    exists chain: seq<nat> :: Connects(rows, root, pid, chain) && |chain| >= 2
  }

  lemma RootReachable(rows: seq<Row>, root: nat)
    ensures Reachable(rows, root, root)
  {
    assert Connects(rows, root, root, [root]);
  }

  lemma ChainExtends(rows: seq<Row>, root: nat, a: nat, b: nat)
    requires Reachable(rows, root, a) && Parent(rows, a, b)
    ensures Reachable(rows, root, b) && Descends(rows, root, b)
  {
    var chain: seq<nat> :| Connects(rows, root, a, chain);
    assert Connects(rows, root, b, chain + [b]);
  }

  /** The stack walk's set and the search's set differ in the root only. */
  lemma ReachableIffRootOrDescends(rows: seq<Row>, root: nat, pid: nat)
    ensures Reachable(rows, root, pid) <==> pid == root || Descends(rows, root, pid)
  {
    RootReachable(rows, root);
    if Reachable(rows, root, pid) {
      var chain: seq<nat> :| Connects(rows, root, pid, chain);
      assert |chain| == 1 ==> pid == root;
    }
  }

  /** A set that holds the start of a chain and follows links holds its end. */
  lemma {:induction false} ClosedHoldsChain(rows: seq<Row>, closed: set<nat>, chain: seq<nat>, n: nat)
    requires IsChain(rows, chain) && n < |chain| && chain[0] in closed
    requires forall a, b :: a in closed && Parent(rows, a, b) ==> b in closed
    ensures chain[n] in closed
  {
    if n > 0 {
      ClosedHoldsChain(rows, closed, chain, n - 1);
      assert Parent(rows, chain[n - 1], chain[n - 1 + 1]);
    }
  }

  lemma ClosedHoldsReachable(rows: seq<Row>, closed: set<nat>, root: nat, pid: nat)
    requires root in closed && Reachable(rows, root, pid)
    requires forall a, b :: a in closed && Parent(rows, a, b) ==> b in closed
    ensures pid in closed
  {
    var chain: seq<nat> :| Connects(rows, root, pid, chain);
    ClosedHoldsChain(rows, closed, chain, |chain| - 1);
  }

  // ---------------------------------------------------------------- ticks

  /** The ticks of all rows whose process is in the set, duplicates included. */
  function TicksOf(rows: seq<Row>, pids: set<nat>): nat {
    if rows == [] then 0 else
    TicksOf(rows[..|rows| - 1], pids) + if rows[|rows| - 1].pid in pids then rows[|rows| - 1].ticks else 0
  }

  lemma TicksSnoc(rows: seq<Row>, r: Row, pids: set<nat>)
    ensures TicksOf(rows + [r], pids) == TicksOf(rows, pids) + if r.pid in pids then r.ticks else 0
  {
    assert (rows + [r])[..|rows|] == rows;
  }

  lemma {:induction false} TicksUnion(rows: seq<Row>, seen: set<nat>, pid: nat)
    requires pid !in seen
    ensures TicksOf(rows, seen + {pid}) == TicksOf(rows, seen) + TicksOf(rows, {pid})
  {
    if rows != [] { TicksUnion(rows[..|rows| - 1], seen, pid); }
  }

  lemma {:induction false} NoTicks(rows: seq<Row>)
    ensures TicksOf(rows, {}) == 0
  {
    if rows != [] { NoTicks(rows[..|rows| - 1]); }
  }

  function Pids(rows: seq<Row>): set<nat> { set r | r in rows :: r.pid }

  lemma ParentGivesPid(rows: seq<Row>, a: nat, b: nat)
    requires Parent(rows, a, b)
    ensures b in Pids(rows)
  {
    var k :| 0 <= k < |rows| && rows[k].ppid == a && rows[k].pid == b;
    assert rows[k] in rows;
  }

  // ---------------------------------------------------------------- stack traversal

  /** What the walk has yet to look at is on the stack. */
  ghost predicate Pending(rows: seq<Row>, seen: set<nat>, stack: seq<nat>) {
    forall a, b :: a in seen && Parent(rows, a, b) ==> b in seen || b in stack
  }

  ghost predicate AllReachable(rows: seq<Row>, root: nat, pids: seq<nat>) {
    forall i :: 0 <= i < |pids| ==> Reachable(rows, root, pids[i])
  }

  /** The scan of all rows for one process: add its ticks, push its children. */
  method Scan(rows: seq<Row>, pid: nat, start: seq<nat>, before: nat) returns (stack: seq<nat>, total: nat)
    requires before <= U64_MAX
    ensures total == Min(before + TicksOf(rows, {pid}), U64_MAX)
    ensures |stack| >= |start| && stack[..|start|] == start
    ensures forall b :: b in stack[|start|..] <==> Parent(rows, pid, b)
  {
    stack, total := start, before;
    for k := 0 to |rows|
      invariant total == Min(before + TicksOf(rows[..k], {pid}), U64_MAX)
      invariant |stack| >= |start| && stack[..|start|] == start
      invariant forall b :: b in stack[|start|..] <==> exists j :: 0 <= j < k && rows[j].ppid == pid && rows[j].pid == b
    {
      assert rows[..k + 1] == rows[..k] + [rows[k]];
      TicksSnoc(rows[..k], rows[k], {pid});
      if rows[k].pid == pid {
        total := Min(total + rows[k].ticks, U64_MAX);
      }
      if rows[k].ppid == pid {
        ghost var pushed := stack[|start|..];
        stack := stack + [rows[k].pid];
        assert stack[|start|..] == pushed + [rows[k].pid];
      }
    }
    assert rows[..|rows|] == rows;
  }

  /** `seen` is what the traversal visited, a local of the original. */
  method SumProcessTreeCpuTicks(root: nat, rows: seq<Row>) returns (total: nat, seen: set<nat>)
    ensures forall p :: p in seen <==> Reachable(rows, root, p)
    ensures total == Min(TicksOf(rows, seen), U64_MAX)
  {
    hide Reachable, Parent, Pids, TicksOf;
    var stack := [root];
    seen, total := {}, 0;
    ghost var universe := Pids(rows) + {root};
    RootReachable(rows, root);
    NoTicks(rows);
    while stack != []
      invariant seen <= universe
      invariant forall i :: 0 <= i < |stack| ==> stack[i] in universe
      invariant root in seen || root in stack
      invariant forall p :: p in seen ==> Reachable(rows, root, p)
      invariant AllReachable(rows, root, stack)
      invariant Pending(rows, seen, stack)
      invariant total == Min(TicksOf(rows, seen), U64_MAX)
      decreases |universe - seen|, |stack|
    {
      var pid := stack[|stack| - 1];
      ghost var was := stack;
      stack := stack[..|stack| - 1];
      assert was == stack + [pid];
      if pid in seen {
        PopSeen(rows, seen, was, stack, pid);
        continue;
      }
      TicksUnion(rows, seen, pid);
      ghost var rest := stack;
      stack, total := Scan(rows, pid, stack, total);
      ScanKeeps(rows, root, seen, rest, pid, stack);
      Shrinks(universe, seen, pid);
      seen := seen + {pid};
    }
    forall p | Reachable(rows, root, p) ensures p in seen { ClosedHoldsReachable(rows, seen, root, p); }
  }

  lemma {:induction false} SubsetSize(a: set<nat>, b: set<nat>)
    requires a < b
    ensures |a| < |b|
  {
    var x :| x in b && x !in a;
    assert a <= b - {x};
    SmallerSize(a, b - {x});
  }

  lemma {:induction false} SmallerSize(a: set<nat>, b: set<nat>)
    requires a <= b
    ensures |a| <= |b|
  {
    if a != {} {
      var x :| x in a;
      SmallerSize(a - {x}, b - {x});
    }
  }

  lemma Shrinks(universe: set<nat>, seen: set<nat>, pid: nat)
    requires pid in universe && pid !in seen
    ensures |universe - (seen + {pid})| < |universe - seen|
  {
    assert pid in universe - seen;
    SubsetSize(universe - (seen + {pid}), universe - seen);
  }

  lemma PopSeen(rows: seq<Row>, seen: set<nat>, was: seq<nat>, stack: seq<nat>, pid: nat)
    requires was == stack + [pid] && pid in seen && Pending(rows, seen, was)
    ensures Pending(rows, seen, stack)
  {
  }

  lemma ScanKeeps(rows: seq<Row>, root: nat, seen: set<nat>, rest: seq<nat>, pid: nat, stack: seq<nat>)
    requires Pending(rows, seen, rest + [pid]) && Reachable(rows, root, pid) && AllReachable(rows, root, rest)
    requires |stack| >= |rest| && stack[..|rest|] == rest
    requires forall b :: b in stack[|rest|..] <==> Parent(rows, pid, b)
    requires forall i :: 0 <= i < |rest| ==> rest[i] in Pids(rows) + {root}
    ensures Pending(rows, seen + {pid}, stack) && AllReachable(rows, root, stack)
    ensures forall i :: 0 <= i < |stack| ==> stack[i] in Pids(rows) + {root}
    ensures forall p :: p in rest ==> p in stack
  {
    hide Reachable, Parent, Pids;
    assert stack == rest + stack[|rest|..];
    forall i | 0 <= i < |stack| ensures Reachable(rows, root, stack[i]) && stack[i] in Pids(rows) + {root} {
      if i < |rest| {
        assert stack[i] == rest[i];
      } else {
        assert stack[i] in stack[|rest|..];
        ChainExtends(rows, root, pid, stack[i]);
        ParentGivesPid(rows, pid, stack[i]);
      }
    }
  }

  // ---------------------------------------------------------------- breadth-first search

  /** The pids of a process's children, in table order. */
  function ChildrenOf(rows: seq<Row>, parent: nat): seq<nat> {
    if rows == [] then [] else
    var last := rows[|rows| - 1];
    ChildrenOf(rows[..|rows| - 1], parent) + if last.ppid == parent then [last.pid] else []
  }

  lemma {:induction false} ChildrenIffParent(rows: seq<Row>, a: nat, b: nat)
    ensures b in ChildrenOf(rows, a) <==> Parent(rows, a, b)
  {
    if rows != [] {
      var init := rows[..|rows| - 1];
      ChildrenIffParent(init, a, b);
      assert Parent(init, a, b) ==> Parent(rows, a, b);
    }
  }

  method ByParent(rows: seq<Row>) returns (byParent: map<nat, seq<nat>>)
    ensures forall p :: (if p in byParent then byParent[p] else []) == ChildrenOf(rows, p)
  {
    byParent := map[];
    for k := 0 to |rows|
      invariant forall p :: (if p in byParent then byParent[p] else []) == ChildrenOf(rows[..k], p)
    {
      var r := rows[k];
      assert rows[..k + 1][..k] == rows[..k];
      var known := if r.ppid in byParent then byParent[r.ppid] else [];
      byParent := byParent[r.ppid := known + [r.pid]];
    }
    assert rows[..|rows|] == rows;
  }

  /** Every process known so far is still queued or has all its children in `out`. */
  ghost predicate Expanded(rows: seq<Row>, root: nat, out: set<nat>, queue: seq<nat>) {
    forall a, b :: (a == root || a in out) && Parent(rows, a, b) ==> a in queue || b in out
  }

  /** Put the unknown children into the set and the queue. */
  method Enqueue(children: seq<nat>, known: set<nat>, start: seq<nat>) returns (out: set<nat>, queue: seq<nat>)
    ensures out == known + (set c | c in children)
    ensures |queue| >= |start| && queue[..|start|] == start
    ensures forall p :: p in queue[|start|..] <==> p in out && p !in known
    ensures out == known ==> queue == start
  {
    out, queue := known, start;
    for k := 0 to |children|
      invariant out == known + (set c | c in children[..k])
      invariant |queue| >= |start| && queue[..|start|] == start
      invariant forall p :: p in queue[|start|..] <==> p in out && p !in known
      invariant out == known ==> queue == start
    {
      assert children[..k + 1] == children[..k] + [children[k]];
      if children[k] !in out {
        ghost var added := queue[|start|..];
        out := out + {children[k]};
        queue := queue + [children[k]];
        assert queue[|start|..] == added + [children[k]];
        assert children[k] in out && children[k] !in known;
      }
    }
    assert children[..|children|] == children;
  }

  method Descendants(root: nat, rows: seq<Row>) returns (out: set<nat>)
    ensures forall p :: p in out <==> Descends(rows, root, p)
  {
    hide Descends, Expanded, AllReachable, Pids, ChildrenOf;
    var byParent := ByParent(rows);
    out := {};
    var queue := [root];
    AtTheRoot(rows, root);
    while queue != []
      invariant out <= Pids(rows)
      invariant AllDescend(rows, root, out)
      invariant AllReachable(rows, root, queue)
      invariant Expanded(rows, root, out, queue)
      decreases |Pids(rows) - out|, |queue|
    {
      var parent := queue[0];
      ghost var was, known := queue, out;
      queue := queue[1..];
      var children := if parent in byParent then byParent[parent] else [];
      assert children == ChildrenOf(rows, parent);
      out, queue := Enqueue(children, out, queue);
      EnqueueKeeps(rows, root, known, was, parent, out, queue);
      if out != known { GrowthShrinks(Pids(rows), known, out); }
    }
    forall p | Descends(rows, root, p) ensures p in out { DescendantIsOut(rows, root, out, p); }
  }

  ghost predicate AllDescend(rows: seq<Row>, root: nat, pids: set<nat>) {
    forall p :: p in pids ==> Descends(rows, root, p)
  }

  lemma AtTheRoot(rows: seq<Row>, root: nat)
    ensures AllReachable(rows, root, [root]) && Expanded(rows, root, {}, [root]) && AllDescend(rows, root, {})
  {
    RootReachable(rows, root);
  }

  lemma GrowthShrinks(universe: set<nat>, known: set<nat>, out: set<nat>)
    requires known < out <= universe
    ensures |universe - out| < |universe - known|
  {
    var x :| x in out && x !in known;
    assert x in universe - known && x !in universe - out;
    SubsetSize(universe - out, universe - known);
  }

  lemma EnqueueKeeps(rows: seq<Row>, root: nat, known: set<nat>, was: seq<nat>, parent: nat, out: set<nat>, queue: seq<nat>)
    requires was != [] && was[0] == parent && known <= Pids(rows)
    requires AllDescend(rows, root, known)
    requires AllReachable(rows, root, was) && Expanded(rows, root, known, was)
    requires out == known + (set c | c in ChildrenOf(rows, parent))
    requires |queue| >= |was| - 1 && queue[..|was| - 1] == was[1..]
    requires forall p :: p in queue[|was| - 1..] <==> p in out && p !in known
    ensures out <= Pids(rows) && known <= out
    ensures AllDescend(rows, root, out)
    ensures AllReachable(rows, root, queue) && Expanded(rows, root, out, queue)
  {
    hide Reachable, Parent, Descends, ChildrenOf, Pids;
    forall b ensures b in ChildrenOf(rows, parent) <==> Parent(rows, parent, b) { ChildrenIffParent(rows, parent, b); }
    forall b | Parent(rows, parent, b) ensures Reachable(rows, root, b) && Descends(rows, root, b) && b in Pids(rows) {
      ChainExtends(rows, root, parent, b);
      ParentGivesPid(rows, parent, b);
    }
    var n := |was| - 1;
    assert queue == was[1..] + queue[n..];
    forall i | 0 <= i < |queue| ensures Reachable(rows, root, queue[i]) {
      if i < n { assert queue[i] == was[i + 1]; } else {
        var b := queue[n..][i - n];
        assert b in queue[n..];
        assert b in out && b !in known;
        assert b in ChildrenOf(rows, parent);
      }
    }
    assert was == [parent] + was[1..];
    forall a, b | (a == root || a in out) && Parent(rows, a, b) ensures a in queue || b in out {
      if a in out && a !in known {
        assert a in queue[n..];
      } else {
        assert a in was || b in known;
      }
    }
  }

  lemma DescendantIsOut(rows: seq<Row>, root: nat, out: set<nat>, pid: nat)
    requires Expanded(rows, root, out, []) && Descends(rows, root, pid)
    ensures pid in out
  {
    var chain: seq<nat> :| Connects(rows, root, pid, chain) && |chain| >= 2;
    assert Parent(rows, chain[0], chain[0 + 1]);
    var tail := chain[1..];
    forall i | 0 <= i < |tail| - 1 ensures Parent(rows, tail[i], tail[i + 1]) {
      assert Parent(rows, chain[i + 1], chain[i + 1 + 1]);
    }
    ClosedHoldsChain(rows, out, tail, |tail| - 1);
  }

  /** The CPU sampler and the telemetry look at the same processes. */
  lemma WalksAgree(rows: seq<Row>, root: nat, seen: set<nat>, out: set<nat>)
    requires forall p :: p in seen <==> Reachable(rows, root, p)
    requires forall p :: p in out <==> Descends(rows, root, p)
    ensures seen == {root} + out
  {
    forall p ensures p in seen <==> p in {root} + out {
      if p >= 0 { ReachableIffRootOrDescends(rows, root, p); }
    }
  }
}
