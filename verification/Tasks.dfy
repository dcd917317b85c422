/**
 Download tasks and their order.
 */
module Tasks {

  datatype Task = Task(path: string, hash: string, fileSize: int, priority: nat)

  /** Rust orders strings by their bytes, which for UTF-8 is the order of their code points. */
  predicate StrLess(a: string, b: string) {
    b != [] && (a == [] || a[0] < b[0] || (a[0] == b[0] && StrLess(a[1..], b[1..])))
  }

  lemma {:induction false} StrLessTotal(a: string, b: string)
    ensures a == b || StrLess(a, b) || StrLess(b, a)
    ensures !(StrLess(a, b) && StrLess(b, a))
    ensures a == b ==> !StrLess(a, b)
  {
    if a != [] && b != [] {
      StrLessTotal(a[1..], b[1..]);
      if a[0] == b[0] && a[1..] == b[1..] {
        assert a == [a[0]] + a[1..] == b;
      }
    }
  }

  lemma {:induction false} StrLessTransitive(a: string, b: string, c: string)
    requires StrLess(a, b) && StrLess(b, c)
    ensures StrLess(a, c)
  {
    if a != [] && a[0] == b[0] == c[0] {
      StrLessTransitive(a[1..], b[1..], c[1..]);
    }
  }

  /** Alphabetical order: at the first difference the smaller character decides, and a proper prefix comes first. */
  ghost predicate ComesFirst(a: string, b: string) {
    exists k :: 0 <= k <= |a| && k < |b| && a[..k] == b[..k] && (k == |a| || a[k] < b[k])
  }

  lemma {:induction false} StrLessIff(a: string, b: string)
    ensures StrLess(a, b) <==> ComesFirst(a, b)
  {
    if a == [] || b == [] {
      assert b != [] ==> a[..0] == b[..0];
    } else {
      StrLessIff(a[1..], b[1..]);
      if StrLess(a, b) {
        if a[0] < b[0] {
          assert a[..0] == b[..0];
        } else {
          var k :| 0 <= k <= |a[1..]| && k < |b[1..]| && a[1..][..k] == b[1..][..k] && (k == |a[1..]| || a[1..][k] < b[1..][k]);
          assert a[..k + 1] == [a[0]] + a[1..][..k] && b[..k + 1] == [b[0]] + b[1..][..k];
        }
      }
      if ComesFirst(a, b) {
        var k :| 0 <= k <= |a| && k < |b| && a[..k] == b[..k] && (k == |a| || a[k] < b[k]);
        if k > 0 {
          assert a[0] == a[..k][0] == b[..k][0] == b[0];
          assert a[1..][..k - 1] == a[..k][1..] && b[1..][..k - 1] == b[..k][1..];
        }
      }
    }
  }

  /** The order of `sort_by`: priority, then path. */
  predicate Before(a: Task, b: Task) {
    a.priority < b.priority || (a.priority == b.priority && StrLess(a.path, b.path))
  }

  predicate Sorted(ts: seq<Task>) {
    forall i, j :: 0 <= i < j < |ts| ==> Before(ts[i], ts[j])
  }

  lemma BeforeTransitive(a: Task, b: Task, c: Task)
    requires Before(a, b) && Before(b, c)
    ensures Before(a, c)
  {
    if a.priority == b.priority == c.priority {
      StrLessTransitive(a.path, b.path, c.path);
    }
  }

  /** Insert into a sorted list, behind everything that is not after the new task. */
  function Insert(t: Task, ts: seq<Task>): (r: seq<Task>)
    ensures multiset(r) == multiset(ts) + multiset{t}
  {
    if ts == [] then [t]
    else if Before(t, ts[0]) then [t] + ts
    else
      assert ts == [ts[0]] + ts[1..];
      [ts[0]] + Insert(t, ts[1..])
  }

  lemma {:induction false} InsertSorted(t: Task, ts: seq<Task>)
    requires Sorted(ts) && forall i :: 0 <= i < |ts| ==> ts[i].path != t.path
    ensures Sorted(Insert(t, ts))
  {
    if ts == [] {
    } else if Before(t, ts[0]) {
      forall j | 0 < j < |ts| ensures Before(t, ts[j]) {
        BeforeTransitive(t, ts[0], ts[j]);
      }
    } else {
      InsertSorted(t, ts[1..]);
      StrLessTotal(t.path, ts[0].path);
      var r := Insert(t, ts[1..]);
      forall j | 0 <= j < |r| ensures Before(ts[0], r[j]) {
        assert r[j] in multiset(r);
        assert r[j] == t || r[j] in ts[1..];
      }
    }
  }

  function SortTasks(ts: seq<Task>): (r: seq<Task>)
    ensures multiset(r) == multiset(ts)
  {
    if ts == [] then []
    else
      assert ts == [ts[0]] + ts[1..];
      Insert(ts[0], SortTasks(ts[1..]))
  }

  predicate DistinctPaths(ts: seq<Task>) {
    forall i, j :: 0 <= i < j < |ts| ==> ts[i].path != ts[j].path
  }

  lemma {:induction false} SortTasksSorted(ts: seq<Task>)
    requires DistinctPaths(ts)
    ensures Sorted(SortTasks(ts))
  {
    if ts != [] {
      SortTasksSorted(ts[1..]);
      var r := SortTasks(ts[1..]);
      forall i | 0 <= i < |r| ensures r[i].path != ts[0].path {
        assert r[i] in multiset(r);
        assert r[i] in ts[1..];
      }
      InsertSorted(ts[0], r);
    }
  }

  /** A strictly sorted list is determined by its elements. */
  lemma {:induction false} SortedUnique(a: seq<Task>, b: seq<Task>)
    requires Sorted(a) && Sorted(b) && forall t :: t in a <==> t in b
    ensures a == b
  {
    if a != [] { assert a[0] in b; }
    if b != [] { assert b[0] in a; }
    if a != [] {
      NotBeforeItself(a[0]);
      FirstIsLeast(a, b);
      forall t ensures t in a[1..] <==> t in b[1..] {
        assert t in a <==> t == a[0] || t in a[1..];
        assert t in b <==> t == b[0] || t in b[1..];
        HeadIsNotInTail(a);
        HeadIsNotInTail(b);
      }
      SortedUnique(a[1..], b[1..]);
      assert a == [a[0]] + a[1..] && b == [b[0]] + b[1..];
    }
  }

  lemma NotBeforeItself(t: Task)
    ensures !Before(t, t)
  {
    StrLessTotal(t.path, t.path);
  }

  lemma HeadIsNotInTail(a: seq<Task>)
    requires Sorted(a) && a != []
    ensures a[0] !in a[1..]
  {
    NotBeforeItself(a[0]);
  }

  lemma FirstIsLeast(a: seq<Task>, b: seq<Task>)
    requires a != [] && b != [] && Sorted(a) && Sorted(b) && forall t :: t in a <==> t in b
    ensures a[0] == b[0]
  {
    assert a[0] in b && b[0] in a;
    var i :| 0 <= i < |b| && b[i] == a[0];
    var j :| 0 <= j < |a| && a[j] == b[0];
    if i != 0 && j != 0 {
      BeforeTransitive(a[0], b[0], a[0]);
      NotBeforeItself(a[0]);
    }
  }
}
