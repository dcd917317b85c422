/**
 Environment overrides of the YAML configuration tree (`apply_env_override`,
 `set_env_override_leaf` and `descend_env_override_path` in
 src/core/config.rs).  A path segment that reads as a `usize` indexes a
 sequence, growing it with nulls; anything else is a mapping key, and a node
 of another kind is replaced by a mapping.
 */
module EnvOverride {
  import opened Common
  import opened Bytes
  import Decimal

  datatype Key = Name(name: string) | OtherKey(text: string)

  /** Booleans, numbers, strings and tagged values are all replaced alike. */
  datatype Yaml =
    | Null
    | Scalar(text: string)
    | Sequence(items: seq<Yaml>)
    | Mapping(entries: map<Key, Yaml>)

  predicate IsDigit(c: char) { '0' <= c <= '9' }

  predicate AllDigits(s: string) { forall i :: 0 <= i < |s| ==> IsDigit(s[i]) }

  /** Rust's `parse::<usize>()`: digits after at most one plus sign, below 2^64. */
  function ParseUsize(s: string): Option<nat> {
    var digits := if s != [] && s[0] == '+' then s[1..] else s;
    if digits != [] && AllDigits(digits) && 0 <= Decimal.Value(digits) < TWO64
    then Some(Decimal.Value(digits)) else None
  }

  /** The usual spelling of an index, with or without a plus sign, is that index. */
  lemma RenderingParses(n: nat)
    requires n < TWO64
    ensures ParseUsize(Decimal.NatToString(n)) == Some(n) && ParseUsize("+" + Decimal.NatToString(n)) == Some(n)
  {
    var s := Decimal.NatToString(n);
    forall i | 0 <= i < |s| ensures IsDigit(s[i]) { Decimal.NatDigits(n, |s| - 1 - i); }
    Decimal.ValueOfNat(n);
    assert ("+" + s)[1..] == s;
    Decimal.NatDigits(n, |s| - 1);
  }

  /** Nothing but digits after at most one plus sign is an index, and not beyond 64 bits. */
  lemma NamesAreNotIndices(s: string)
    ensures s == "" || s == "+" ==> ParseUsize(s) == None
    ensures (exists i :: 0 <= i < |s| && !('0' <= s[i] <= '9') && !(i == 0 && s[i] == '+')) ==> ParseUsize(s) == None
    ensures ParseUsize(s).Some? ==> ParseUsize(s).value < TWO64
  {
    if i :| 0 <= i < |s| && !('0' <= s[i] <= '9') && !(i == 0 && s[i] == '+') {
      var digits := if s != [] && s[0] == '+' then s[1..] else s;
      var j := if s[0] == '+' then i - 1 else i;
      assert 0 <= j < |digits| && digits[j] == s[i];
      assert !AllDigits(digits);
    }
  }

  /** Where in a container a segment leads. */
  datatype Slot = Index(i: nat) | Field(name: string)

  function SlotOf(v: Yaml, segment: string): Slot {
    if ParseUsize(segment).Some? && (v.Sequence? || v.Null?) then Index(ParseUsize(segment).value) else Field(segment)
  }

  /** The sequence grown to the given length with nulls. */
  function Padded(items: seq<Yaml>, n: nat): (r: seq<Yaml>)
    ensures |r| == Max(|items|, n)
  {
    if |items| < n then items + seq(n - |items|, _ => Null) else items
  }

  /** The node turned into a container that has room for the slot. */
  function Opened(v: Yaml, slot: Slot): Yaml {
    match slot
    case Index(i) => Sequence(Padded(if v.Sequence? then v.items else [], i + 1))
    case Field(_) => if v.Mapping? then v else Mapping(map[])
  }

  function ChildAt(v: Yaml, slot: Slot): Option<Yaml> {
    match slot
    case Index(i) => if v.Sequence? && i < |v.items| then Some(v.items[i]) else None
    case Field(n) => if v.Mapping? && Name(n) in v.entries then Some(v.entries[Name(n)]) else None
  }

  function SetAt(v: Yaml, slot: Slot, x: Yaml): Yaml {
    match slot
    case Index(i) => if v.Sequence? && i < |v.items| then Sequence(v.items[i := x]) else v
    case Field(n) => if v.Mapping? then Mapping(v.entries[Name(n) := x]) else v
  }

  /** A child that is created holds what its own next segment asks for. */
  function DefaultChild(next: string): Yaml { if ParseUsize(next).Some? then Sequence([]) else Mapping(map[]) }

  /** The child a descent continues in; a null is replaced in a sequence, but kept in a mapping. */
  function Entered(v: Yaml, segment: string, next: string): Yaml {
    var slot := SlotOf(v, segment);
    match ChildAt(Opened(v, slot), slot)
    case None => DefaultChild(next)
    case Some(child) => if slot.Index? && child == Null then DefaultChild(next) else child
  }

  /** The tree with the value stored at the path. */
  function Put(v: Yaml, path: seq<string>, x: Yaml): Yaml
    requires path != []
    decreases |path|
  {
    var slot := SlotOf(v, path[0]);
    SetAt(Opened(v, slot), slot, if |path| == 1 then x else Put(Entered(v, path[0], path[1]), path[1..], x))
  }

  /** What the configuration holds at a path. */
  function Get(v: Yaml, path: seq<string>): Option<Yaml>
    decreases |path|
  {
    if path == [] then Some(v) else
    match Child(v, path[0]) case None => None case Some(child) => Get(child, path[1..])
  }

  function Child(v: Yaml, segment: string): Option<Yaml> {
    match v
    case Sequence(_) => if ParseUsize(segment).Some? then ChildAt(v, Index(ParseUsize(segment).value)) else None
    case Mapping(_) => ChildAt(v, Field(segment))
    case _ => None
  }

  // ---------------------------------------------------------------- the cursor

  /** A container the cursor passed, and the slot it went through. */
  datatype Hole = Hole(container: Yaml, slot: Slot)

  /** The whole tree, given the node under the cursor. */
  function Plug(trail: seq<Hole>, v: Yaml): Yaml {
    if trail == [] then v else
    var last := trail[|trail| - 1];
    Plug(trail[..|trail| - 1], SetAt(last.container, last.slot, v))
  }

  const EMPTY_PATH := "override path is empty"

  /** The walk with a cursor; the trail stands for the borrow that leads back to the root. */
  method ApplyEnvOverride(root: Yaml, path: seq<string>, value: Yaml) returns (r: Result<Yaml, string>)
    ensures r == if path == [] then Err(EMPTY_PATH) else Ok(Put(root, path, value))
  {
    hide ParseUsize, SlotOf, Opened, Entered, SetAt;
    if path == [] {
      return Err(EMPTY_PATH);
    }
    var current, trail, idx := root, [], 0;
    while idx + 1 < |path|
      invariant 0 <= idx < |path|
      invariant Plug(trail, Put(current, path[idx..], value)) == Put(root, path, value)
    {
      var slot := SlotOf(current, path[idx]);
      var container := Opened(current, slot);
      var child := Entered(current, path[idx], path[idx + 1]);
      assert path[idx..][1..] == path[idx + 1..];
      var more := trail + [Hole(container, slot)];
      assert more[..|more| - 1] == trail;
      trail, current, idx := more, child, idx + 1;
    }
    var slot := SlotOf(current, path[idx]);
    current := SetAt(Opened(current, slot), slot, value);
    while trail != []
      invariant Plug(trail, current) == Put(root, path, value)
      decreases |trail|
    {
      var last := trail[|trail| - 1];
      current, trail := SetAt(last.container, last.slot, current), trail[..|trail| - 1];
    }
    return Ok(current);
  }

  // ---------------------------------------------------------------- laws

  /** In the container a put leaves behind, this segment leads through the same slot. */
  predicate SameSlot(v: Yaml, segment: string, other: string) {
    match SlotOf(v, segment)
    case Index(i) => ParseUsize(other) == Some(i)
    case Field(n) => other == n
  }

  /** One level of a put: the slot holds the new child, the rest is what the opened container held. */
  lemma ChildAfterSet(v: Yaml, segment: string, other: string, x: Yaml)
    ensures var slot := SlotOf(v, segment);
            Child(SetAt(Opened(v, slot), slot, x), other)
            == if SameSlot(v, segment, other) then Some(x) else Child(Opened(v, slot), other)
  {
  }

  /** The node a put works on after `k` segments. */
  function NodeAt(v: Yaml, path: seq<string>, k: nat): Yaml
    requires k < |path|
    decreases k
  {
    if k == 0 then v else NodeAt(Entered(v, path[0], path[1]), path[1..], k - 1)
  }

  /** `q` leads through the same nodes as the put along `p` for `k` segments. */
  predicate Follows(v: Yaml, p: seq<string>, q: seq<string>, k: nat)
    requires k <= |p| && k <= |q|
    decreases k
  {
    k == 0 || (SameSlot(v, p[0], q[0]) && (k == 1 || Follows(Entered(v, p[0], p[1]), p[1..], q[1..], k - 1)))
  }

  lemma {:induction false} PathFollowsItself(v: Yaml, p: seq<string>, k: nat)
    requires k <= |p|
    ensures Follows(v, p, p, k)
    decreases k
  {
    if k > 1 { PathFollowsItself(Entered(v, p[0], p[1]), p[1..], k - 1); }
  }

  /** Reading at or below the path gives the value, or the part of the value asked for. */
  lemma {:induction false} GetAtOrBelowPut(v: Yaml, p: seq<string>, x: Yaml, q: seq<string>)
    requires p != [] && |p| <= |q| && Follows(v, p, q, |p|)
    ensures Get(Put(v, p, x), q) == Get(x, q[|p|..])
    decreases |p|
  {
    hide ParseUsize, SetAt, Opened, Entered, SlotOf, SameSlot, Child;
    if |p| == 1 {
      ChildAfterSet(v, p[0], q[0], x);
    } else {
      var below := Entered(v, p[0], p[1]);
      ChildAfterSet(v, p[0], q[0], Put(below, p[1..], x));
      GetAtOrBelowPut(below, p[1..], x, q[1..]);
      assert q[1..][|p[1..]|..] == q[|p|..];
    }
  }

  /** Get after put, on every tree and path. */
  lemma GetAfterPut(v: Yaml, p: seq<string>, x: Yaml)
    requires p != []
    ensures Get(Put(v, p, x), p) == Some(x)
  {
    PathFollowsItself(v, p, |p|);
    GetAtOrBelowPut(v, p, x, p);
    assert p[|p|..] == [];
  }

  /** An override at an index changes that item, keeps the others, and fills with nulls up to it. */
  lemma PutAtIndex(items: seq<Yaml>, n: nat, x: Yaml)
    requires n < TWO64
    ensures var r := Put(Sequence(items), [Decimal.NatToString(n)], x);
            && r.Sequence? && |r.items| == (if n < |items| then |items| else n + 1) && r.items[n] == x
            && (forall j :: 0 <= j < |r.items| && j != n ==> r.items[j] == if j < |items| then items[j] else Null)
  {
    RenderingParses(n);
    hide ParseUsize;
  }

  /** A child that has to be created is a sequence if the next segment is an index, else a mapping. */
  lemma CreatedKind(v: Yaml, p: seq<string>, x: Yaml)
    requires |p| >= 2 && (Child(v, p[0]) == None || (v.Sequence? && Child(v, p[0]) == Some(Null)))
    ensures var node := Get(Put(v, p, x), [p[0]]);
            && node.Some?
            && (ParseUsize(p[1]).Some? ==> node.value.Sequence?)
            && (ParseUsize(p[1]).None? ==> node.value.Mapping?)
  {
    var below := Entered(v, p[0], p[1]);
    assert below == DefaultChild(p[1]) by { hide ParseUsize; }
    ChildAfterSet(v, p[0], p[0], Put(below, p[1..], x));
    hide ParseUsize;
    assert p[1..][0] == p[1] && [p[0]][1..] == [];
  }

  /** A sequence read through a name is replaced by a mapping. */
  predicate KindLost(v: Yaml, segment: string) { v.Sequence? && ParseUsize(segment).None? }

  /** An index the put had to fill with null to reach its own. */
  predicate IsPadding(v: Yaml, segment: string, other: string) {
    var had := if v.Sequence? then |v.items| else 0;
    SlotOf(v, segment).Index? && ParseUsize(other).Some? && had <= ParseUsize(other).value < SlotOf(v, segment).i
  }

  /** What opening a container does to the slots that are not the put's own. */
  lemma ChildBeside(v: Yaml, segment: string, other: string)
    requires !SameSlot(v, segment, other)
    ensures Child(Opened(v, SlotOf(v, segment)), other)
            == if KindLost(v, segment) then None else if IsPadding(v, segment, other) then Some(Null) else Child(v, other)
  {
    hide ParseUsize;
  }

  /** Before the put, reading on goes through the node the put enters; one created for it holds nothing. */
  lemma GetThroughEntered(v: Yaml, p: seq<string>, q: seq<string>)
    requires |p| > 1 && |q| > 1 && SameSlot(v, p[0], q[0])
    ensures Get(v, q) == Get(Entered(v, p[0], p[1]), q[1..])
  {
    hide ParseUsize;
    var below, rest := Entered(v, p[0], p[1]), q[1..];
    if below == DefaultChild(p[1]) {
      assert Child(below, rest[0]) == None;
    }
  }

  /** A path that leaves the put's after `k` segments, read after the put. */
  lemma {:induction false} GetBeside(v: Yaml, p: seq<string>, x: Yaml, q: seq<string>, k: nat)
    requires k < |p| && k < |q| && Follows(v, p, q, k) && !SameSlot(NodeAt(v, p, k), p[k], q[k])
    ensures var node := NodeAt(v, p, k);
            && Get(v, q) == Get(node, q[k..])
            && Get(Put(v, p, x), q)
               == if KindLost(node, p[k]) then None
                  else if IsPadding(node, p[k], q[k]) then Get(Null, q[k + 1..])
                  else Get(v, q)
    decreases k
  {
    hide ParseUsize, SetAt, Opened, Entered, SlotOf, SameSlot, Child, KindLost, IsPadding;
    if k == 0 {
      ChildAfterSet(v, p[0], q[0], if |p| == 1 then x else Put(Entered(v, p[0], p[1]), p[1..], x));
      ChildBeside(v, p[0], q[0]);
      assert q[0..] == q;
    } else {
      var below := Entered(v, p[0], p[1]);
      ChildAfterSet(v, p[0], q[0], Put(below, p[1..], x));
      GetThroughEntered(v, p, q);
      GetBeside(below, p[1..], x, q[1..], k - 1);
      assert q[1..][k - 1..] == q[k..] && q[1..][k..] == q[k + 1..];
    }
  }

  /**
   Exactly when a put leaves another path's reading alone: the node where the
   two part is not a sequence turned into a mapping under a value that was
   there, and the other path does not end on an index filled with null.
   */
  lemma PutKeepsOtherReadsIff(v: Yaml, p: seq<string>, x: Yaml, q: seq<string>, k: nat)
    requires k < |p| && k < |q| && Follows(v, p, q, k) && !SameSlot(NodeAt(v, p, k), p[k], q[k])
    ensures var node := NodeAt(v, p, k);
            Get(Put(v, p, x), q) == Get(v, q) <==>
            !(KindLost(node, p[k]) && Get(v, q).Some?) && !(IsPadding(node, p[k], q[k]) && |q| == k + 1)
  {
    hide ParseUsize, SameSlot, Follows, Put, NodeAt;
    GetBeside(v, p, x, q, k);
    var node := NodeAt(v, p, k);
    if IsPadding(node, p[k], q[k]) {
      assert Child(node, q[k..][0]) == None;
    }
  }

  /** A path that ends above the override's reads the node there, with the rest of the override put into it. */
  lemma {:induction false} GetAbovePut(v: Yaml, p: seq<string>, x: Yaml, q: seq<string>)
    requires |q| < |p| && Follows(v, p, q, |q|)
    ensures Get(Put(v, p, x), q) == Some(Put(NodeAt(v, p, |q|), p[|q|..], x))
    decreases |q|
  {
    hide ParseUsize, SetAt, Opened, Entered, SlotOf, SameSlot, Child;
    if q == [] {
      assert p[0..] == p;
    } else {
      var below := Entered(v, p[0], p[1]);
      ChildAfterSet(v, p[0], q[0], Put(below, p[1..], x));
      GetAbovePut(below, p[1..], x, q[1..]);
      assert p[1..][|q[1..]|..] == p[|q|..];
    }
  }

  /** How far two paths lead through the same slots. */
  function Shared(v: Yaml, p: seq<string>, q: seq<string>): (k: nat)
    requires p != []
    ensures k <= |p| && k <= |q| && Follows(v, p, q, k)
    decreases |q|
  {
    if q == [] || !SameSlot(v, p[0], q[0]) then 0
    else if |p| == 1 then 1
    else 1 + Shared(Entered(v, p[0], p[1]), p[1..], q[1..])
  }

  /** The two paths part where `Shared` says, unless one of them ends there. */
  lemma {:induction false} PartsAfterShared(v: Yaml, p: seq<string>, q: seq<string>)
    requires p != []
    ensures var k := Shared(v, p, q); k < |p| && k < |q| ==> !SameSlot(NodeAt(v, p, k), p[k], q[k])
    decreases |q|
  {
    hide SameSlot, Entered;
    if q != [] && |p| > 1 && SameSlot(v, p[0], q[0]) {
      PartsAfterShared(Entered(v, p[0], p[1]), p[1..], q[1..]);
    }
  }

  /**
   Every read after an override, on every tree and for every two paths: at or
   below the override it is read from the value, above it from the node with
   the override in it, and beside it as before unless a sequence became a
   mapping or the read hits padding.
   */
  lemma EveryReadAfterPut(v: Yaml, p: seq<string>, x: Yaml, q: seq<string>)
    requires p != []
    ensures var k := Shared(v, p, q);
            Get(Put(v, p, x), q) ==
              if k == |p| then Get(x, q[k..])
              else if k == |q| then Some(Put(NodeAt(v, p, k), p[k..], x))
              else if KindLost(NodeAt(v, p, k), p[k]) then None
              else if IsPadding(NodeAt(v, p, k), p[k], q[k]) then Get(Null, q[k + 1..])
              else Get(v, q)
  {
    hide Put, Get, Follows, NodeAt, KindLost, IsPadding, SameSlot, Shared;
    var k := Shared(v, p, q);
    PartsAfterShared(v, p, q);
    if k == |p| {
      GetAtOrBelowPut(v, p, x, q);
    } else if k == |q| {
      GetAbovePut(v, p, x, q);
    } else {
      GetBeside(v, p, x, q, k);
    }
  }
}
