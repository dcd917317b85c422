/**
 Layer-1 pruning (src/core/bundle_diff.rs) and the snapshot rebuilt at the end
 of an attempt (`build_next_snapshot` in src/service/poller.rs).  Hash maps are
 visited in an arbitrary order.
 */
module BundleDiff {
  import opened Common
  import opened Bytes
  import Decimal

  datatype Category = StartApp | OnDemand | OtherCategory(name: string)

  /** The fields of `AssetBundleDetail` that decide anything; `rest` stands for the others. */
  datatype Detail = Detail(hash: string, category: Category, crc: int, fileSize: int, rest: string)

  datatype Info = Info(version: Option<string>, os: Option<string>, bundles: map<string, Detail>)

  datatype ChangedBundle = ChangedBundle(bundleName: string, fingerprint: string, size: nat)

  datatype DiffStats = DiffStats(added: nat, changed: nat, same: nat, removed: nat)

  datatype Diff = Diff(changed: seq<ChangedBundle>, stats: DiffStats)

  function FingerprintFor(d: Detail): (string, nat) {
    (Decimal.ToString(d.crc), Max(d.fileSize, 0))
  }

  function Entry(name: string, d: Detail): ChangedBundle {
    ChangedBundle(name, FingerprintFor(d).0, FingerprintFor(d).1)
  }

  function Bundles(info: Option<Info>): map<string, Detail> {
    if info.Some? then info.value.bundles else map[]
  }

  // What the diff means, in terms of checksums.

  ghost function AddedNames(was: map<string, Detail>, now: map<string, Detail>): set<string> {
    now.Keys - was.Keys
  }

  ghost function ChangedNames(was: map<string, Detail>, now: map<string, Detail>): set<string> {
    set n | n in now.Keys && n in was && was[n].crc != now[n].crc
  }

  ghost function UnchangedNames(was: map<string, Detail>, now: map<string, Detail>): set<string> {
    set n | n in now.Keys && n in was && was[n].crc == now[n].crc
  }

  ghost function RemovedNames(was: map<string, Detail>, now: map<string, Detail>): set<string> {
    was.Keys - now.Keys
  }

  ghost function DifferingNames(was: map<string, Detail>, now: map<string, Detail>): set<string> {
    AddedNames(was, now) + ChangedNames(was, now)
  }

  /** The statistics split the new bundles and the old ones without overlap. */
  lemma StatsAddUp(was: map<string, Detail>, now: map<string, Detail>)
    ensures |AddedNames(was, now)| + |ChangedNames(was, now)| + |UnchangedNames(was, now)| == |now|
    ensures |RemovedNames(was, now)| + |ChangedNames(was, now)| + |UnchangedNames(was, now)| == |was|
  {
    Partition(was, now);
    hide AddedNames, ChangedNames, UnchangedNames, RemovedNames;
    var (a, c, u, r) := (AddedNames(was, now), ChangedNames(was, now), UnchangedNames(was, now), RemovedNames(was, now));
    assert |now.Keys| == |now| && |was.Keys| == |was|;
    DisjointSizes(c, u);
    DisjointSizes(a, c + u);
    DisjointSizes(r, c + u);
  }

  lemma Partition(was: map<string, Detail>, now: map<string, Detail>)
    ensures var (a, c, u, r) := (AddedNames(was, now), ChangedNames(was, now), UnchangedNames(was, now), RemovedNames(was, now));
            && now.Keys == a + (c + u) && was.Keys == r + (c + u)
            && c !! u && a !! c + u && r !! c + u
  {
  }

  lemma DisjointSizes(a: set<string>, b: set<string>)
    requires a !! b
    ensures |a + b| == |a| + |b|
  {
  }

  /** Which class a name of the new bundle list falls into. */
  lemma Classify(was: map<string, Detail>, now: map<string, Detail>, n: string)
    requires n in now
    ensures n in AddedNames(was, now) <==> n !in was
    ensures n in ChangedNames(was, now) <==> n in was && was[n].crc != now[n].crc
    ensures n in UnchangedNames(was, now) <==> n in was && was[n].crc == now[n].crc
    ensures n in DifferingNames(was, now) <==> n !in was || was[n].crc != now[n].crc
  {
  }

  /** Every class consists of new bundle names only. */
  lemma ClassesAreNew(was: map<string, Detail>, now: map<string, Detail>)
    ensures AddedNames(was, now) <= now.Keys && ChangedNames(was, now) <= now.Keys
    ensures UnchangedNames(was, now) <= now.Keys && DifferingNames(was, now) <= now.Keys
  {
  }

  /** `changed` lists exactly the names of `names`, once each, with their new fingerprint and size. */
  ghost predicate Lists(changed: seq<ChangedBundle>, now: map<string, Detail>, names: set<string>) {
    && (forall i :: 0 <= i < |changed| ==>
         changed[i].bundleName in names && changed[i].bundleName in now
         && changed[i] == Entry(changed[i].bundleName, now[changed[i].bundleName]))
    && (forall n :: n in names ==> exists i :: 0 <= i < |changed| && changed[i].bundleName == n)
    && (forall i, j :: 0 <= i < j < |changed| ==> changed[i].bundleName != changed[j].bundleName)
  }

  /** What a list of changed bundles says of one of them, written out. */
  lemma EntrySays(changed: seq<ChangedBundle>, now: map<string, Detail>, names: set<string>, i: nat)
    requires Lists(changed, now, names) && i < |changed|
    ensures var (e, d) := (changed[i], now[changed[i].bundleName]);
            && e.bundleName in names && e.bundleName in now
            && e.fingerprint == Decimal.ToString(d.crc)
            && e.size == if d.fileSize > 0 then d.fileSize else 0
  {
  }

  lemma ListsOneMore(changed: seq<ChangedBundle>, now: map<string, Detail>, names: set<string>, n: string)
    requires Lists(changed, now, names) && n in now && n !in names
    ensures Lists(changed + [Entry(n, now[n])], now, names + {n})
  {
    var more := changed + [Entry(n, now[n])];
    forall m | m in names + {n} ensures exists i :: 0 <= i < |more| && more[i].bundleName == m {
      if m == n {
        assert more[|changed|].bundleName == m;
      } else {
        var i :| 0 <= i < |changed| && changed[i].bundleName == m;
        assert more[i].bundleName == m;
      }
    }
  }

  /** How many names of one class have been visited. */
  ghost function SeenOf(kind: set<string>, seen: set<string>): nat { |kind * seen| }

  /** Seeing one more name counts it in the class it belongs to and in no other. */
  lemma SeeOne(kind: set<string>, seen: set<string>, n: string)
    requires n !in seen
    ensures SeenOf(kind, seen + {n}) == SeenOf(kind, seen) + if n in kind then 1 else 0
    ensures n in kind ==> kind * (seen + {n}) == kind * seen + {n}
    ensures n !in kind ==> kind * (seen + {n}) == kind * seen
  {
    if n in kind {
      assert kind * (seen + {n}) == kind * seen + {n};
    } else {
      assert kind * (seen + {n}) == kind * seen;
    }
  }

  lemma SeenNone(kind: set<string>)
    ensures SeenOf(kind, {}) == 0
  {
    assert kind * {} == {};
  }

  lemma SeenAll(kind: set<string>, seen: set<string>)
    requires kind <= seen
    ensures kind * seen == kind && SeenOf(kind, seen) == |kind|
  {
    assert kind * seen == kind;
  }

  method FingerprintsOf(was: map<string, Detail>) returns (fps: map<string, string>)
    ensures fps.Keys == was.Keys
    ensures forall n :: n in was ==> fps[n] == Decimal.ToString(was[n].crc)
  {
    fps := map[];
    var todo := was.Keys;
    while todo != {}
      invariant todo <= was.Keys && fps.Keys == was.Keys - todo
      invariant forall n :: n in fps ==> fps[n] == Decimal.ToString(was[n].crc)
      decreases todo
    {
      var n :| n in todo;
      fps := fps[n := FingerprintFor(was[n]).0];
      todo := todo - {n};
    }
  }

  /** The accumulators after visiting the names in `seen`. */
  ghost predicate DiffSoFar(was: map<string, Detail>, now: map<string, Detail>, seen: set<string>,
                            changed: seq<ChangedBundle>, stats: DiffStats) {
    && stats.added == SeenOf(AddedNames(was, now), seen)
    && stats.changed == SeenOf(ChangedNames(was, now), seen)
    && stats.same == SeenOf(UnchangedNames(was, now), seen)
    && Lists(changed, now, DifferingNames(was, now) * seen)
  }

  /** What visiting one more name does to the accumulators. */
  function Visit(was: map<string, Detail>, now: map<string, Detail>, n: string,
                 changed: seq<ChangedBundle>, stats: DiffStats): (seq<ChangedBundle>, DiffStats)
    requires n in now
  {
    if n !in was then (changed + [Entry(n, now[n])], stats.(added := stats.added + 1))
    else if was[n].crc == now[n].crc then (changed, stats.(same := stats.same + 1))
    else (changed + [Entry(n, now[n])], stats.(changed := stats.changed + 1))
  }

  lemma VisitKeeps(was: map<string, Detail>, now: map<string, Detail>, seen: set<string>, n: string,
                   changed: seq<ChangedBundle>, stats: DiffStats)
    requires DiffSoFar(was, now, seen, changed, stats) && n in now && n !in seen
    ensures var (c, s) := Visit(was, now, n, changed, stats); DiffSoFar(was, now, seen + {n}, c, s)
  {
    hide AddedNames, ChangedNames, UnchangedNames, DifferingNames, SeenOf, Lists;
    Classify(was, now, n);
    SeeOne(AddedNames(was, now), seen, n);
    SeeOne(ChangedNames(was, now), seen, n);
    SeeOne(UnchangedNames(was, now), seen, n);
    SeeOne(DifferingNames(was, now), seen, n);
    if n in DifferingNames(was, now) {
      ListsOneMore(changed, now, DifferingNames(was, now) * seen, n);
    }
  }

  lemma VisitNone(was: map<string, Detail>, now: map<string, Detail>)
    ensures DiffSoFar(was, now, {}, [], DiffStats(0, 0, 0, 0))
  {
    SeenNone(AddedNames(was, now));
    SeenNone(ChangedNames(was, now));
    SeenNone(UnchangedNames(was, now));
    assert DifferingNames(was, now) * {} == {};
  }

  lemma VisitAll(was: map<string, Detail>, now: map<string, Detail>,
                 changed: seq<ChangedBundle>, stats: DiffStats)
    requires DiffSoFar(was, now, now.Keys, changed, stats)
    ensures Lists(changed, now, DifferingNames(was, now))
    ensures stats.added == |AddedNames(was, now)| && stats.changed == |ChangedNames(was, now)|
    ensures stats.same == |UnchangedNames(was, now)|
  {
    ClassesAreNew(was, now);
    SeenAll(AddedNames(was, now), now.Keys);
    SeenAll(ChangedNames(was, now), now.Keys);
    SeenAll(UnchangedNames(was, now), now.Keys);
    SeenAll(DifferingNames(was, now), now.Keys);
  }

  /** `diff`: fingerprints are compared as decimal strings, the result is stated on checksums. */
  method DiffInfo(was: Option<Info>, now: Info) returns (d: Diff)
    ensures Lists(d.changed, now.bundles, DifferingNames(Bundles(was), now.bundles))
    ensures d.stats == DiffStats(|AddedNames(Bundles(was), now.bundles)|,
                                 |ChangedNames(Bundles(was), now.bundles)|,
                                 |UnchangedNames(Bundles(was), now.bundles)|,
                                 |RemovedNames(Bundles(was), now.bundles)|)
  {
    hide AddedNames, ChangedNames, UnchangedNames, DifferingNames, RemovedNames, Lists, DiffSoFar;
    var before := Bundles(was);
    var oldFp := FingerprintsOf(before);
    var changed: seq<ChangedBundle> := [];
    var stats := DiffStats(0, 0, 0, 0);
    ghost var seen: set<string> := {};
    var todo := now.bundles.Keys;
    VisitNone(before, now.bundles);
    while todo != {}
      invariant todo <= now.bundles.Keys && seen + todo == now.bundles.Keys && seen !! todo
      invariant DiffSoFar(before, now.bundles, seen, changed, stats)
      decreases todo
    {
      var n :| n in todo;
      var (fp, size) := FingerprintFor(now.bundles[n]);
      VisitKeeps(before, now.bundles, seen, n, changed, stats);
      if n in oldFp {
        Decimal.SameStringIffSame(before[n].crc, now.bundles[n].crc);
        if oldFp[n] == fp {
          stats := stats.(same := stats.same + 1);
        } else {
          stats := stats.(changed := stats.changed + 1);
          changed := changed + [ChangedBundle(n, fp, size)];
        }
      } else {
        stats := stats.(added := stats.added + 1);
        changed := changed + [ChangedBundle(n, fp, size)];
      }
      seen := seen + {n};
      todo := todo - {n};
    }
    assert seen == now.bundles.Keys;
    VisitAll(before, now.bundles, changed, stats);
    var removed := CountRemoved(before, now.bundles);
    d := Diff(changed, stats.(removed := removed));
  }

  method CountRemoved(was: map<string, Detail>, now: map<string, Detail>) returns (removed: nat)
    ensures removed == |RemovedNames(was, now)|
  {
    hide SeenOf;
    ghost var R := was.Keys - now.Keys;
    ghost var seen: set<string> := {};
    SeenNone(R);
    removed := 0;
    var todo := was.Keys;
    while todo != {}
      invariant seen + todo == was.Keys && seen !! todo
      invariant removed == SeenOf(R, seen)
      decreases todo
    {
      var n :| n in todo;
      SeeOne(R, seen, n);
      if n !in now {
        removed := removed + 1;
      }
      seen := seen + {n};
      todo := todo - {n};
    }
    SeenAll(R, seen);
  }

  // The snapshot kept for the next tick.

  predicate Carried(now: map<string, Detail>, was: map<string, Detail>, processed: set<string>, n: string) {
    n in now && (n in processed || (n in was && was[n].crc == now[n].crc))
  }

  function NextSnapshot(now: Info, was: Option<Info>, processed: set<string>): Info {
    Info(now.version, now.os,
         map n | n in now.bundles && Carried(now.bundles, Bundles(was), processed, n) :: now.bundles[n])
  }

  method BuildNextSnapshot(now: Info, was: Option<Info>, processed: set<string>) returns (carry: Info)
    ensures carry == NextSnapshot(now, was, processed)
  {
    var kept: map<string, Detail> := map[];
    var todo := now.bundles.Keys;
    while todo != {}
      invariant todo <= now.bundles.Keys
      invariant forall n :: n in kept <==> n in now.bundles && n !in todo && Carried(now.bundles, Bundles(was), processed, n)
      invariant forall n :: n in kept ==> kept[n] == now.bundles[n]
      decreases todo
    {
      var name :| name in todo;
      var detail := now.bundles[name];
      if name in processed {
        kept := kept[name := detail];
      } else if was.Some? && name in was.value.bundles && was.value.bundles[name].crc == detail.crc {
        kept := kept[name := detail];
      }
      todo := todo - {name};
    }
    carry := Info(now.version, now.os, kept);
    assert carry.bundles == NextSnapshot(now, was, processed).bundles;
  }

  /**
   The next tick sees again exactly what changed and was not processed, as
   additions: no entry of the kept snapshot is stale or leftover.
   */
  lemma NextTickSeesTheRemainder(now: Info, was: Option<Info>, processed: set<string>)
    ensures var kept := NextSnapshot(now, was, processed).bundles;
            && DifferingNames(kept, now.bundles) == DifferingNames(Bundles(was), now.bundles) - processed
            && AddedNames(kept, now.bundles) == DifferingNames(Bundles(was), now.bundles) - processed
            && ChangedNames(kept, now.bundles) == {}
            && RemovedNames(kept, now.bundles) == {}
    ensures NextSnapshot(now, was, processed).version == now.version && NextSnapshot(now, was, processed).os == now.os
    ensures forall n :: n in NextSnapshot(now, was, processed).bundles ==>
              n in now.bundles && NextSnapshot(now, was, processed).bundles[n] == now.bundles[n]
  {
    var before := Bundles(was);
    var kept := NextSnapshot(now, was, processed).bundles;
    assert ChangedNames(kept, now.bundles) == {};
    assert RemovedNames(kept, now.bundles) == {};
    forall n
      ensures n in AddedNames(kept, now.bundles) <==> n in DifferingNames(before, now.bundles) - processed
    {
      assert n in now.bundles ==> (n in kept <==> Carried(now.bundles, before, processed, n));
    }
  }

  // The snapshot file.  Its codec (msgpack under zstd) is a parameter.

  datatype Codec = Codec(encode: Info -> seq<byte>, decode: seq<byte> -> Option<Info>)

  ghost predicate Faithful(c: Codec) {
    forall i :: c.decode(c.encode(i)) == Some(i)
  }

  datatype LoadResult = Absent | Loaded(info: Info) | Unreadable

  function LoadBytes(c: Codec, file: Option<seq<byte>>): LoadResult {
    match file
    case None => Absent
    case Some(bytes) =>
      match c.decode(bytes)
      case None => Unreadable
      case Some(info) => Loaded(info)
  }

  /** Entries merged on top of a snapshot of the same version and platform, else on nothing. */
  function Merged(existing: LoadResult, version: Option<string>, os: Option<string>,
                  entries: map<string, Detail>): Info {
    if existing.Loaded? && existing.info.version == version && existing.info.os == os
    then existing.info.(bundles := existing.info.bundles + entries)
    else Info(version, os, entries)
  }

  /** Entry by entry: the new entries win, and old ones survive only within the same version and platform. */
  lemma MergedSays(existing: LoadResult, version: Option<string>, os: Option<string>, entries: map<string, Detail>, n: string)
    ensures var (m, kept) := (Merged(existing, version, os, entries),
                              existing.Loaded? && existing.info.version == version && existing.info.os == os);
            && m.version == version && m.os == os
            && (n in m.bundles <==> n in entries || (kept && n in existing.info.bundles))
            && (n in entries ==> m.bundles[n] == entries[n])
            && (kept && n !in entries && n in existing.info.bundles ==> m.bundles[n] == existing.info.bundles[n])
  {
  }

  /** Of several entries for one bundle the last is merged. */
  lemma {:induction false} EntryMapSays(entries: seq<(string, Detail)>, n: string)
    ensures n in EntryMap(entries) <==> exists i :: 0 <= i < |entries| && entries[i].0 == n
    ensures n in EntryMap(entries) ==>
              exists i :: 0 <= i < |entries| && entries[i] == (n, EntryMap(entries)[n]) && forall j :: i < j < |entries| ==> entries[j].0 != n
  {
    if entries != [] {
      var k := |entries| - 1;
      var init := entries[..k];
      EntryMapSays(init, n);
      assert forall i :: 0 <= i < k ==> init[i] == entries[i];
      if entries[k].0 != n && n in EntryMap(init) {
        var i :| 0 <= i < |init| && init[i] == (n, EntryMap(init)[n]) && forall j :: i < j < |init| ==> init[j].0 != n;
        assert entries[i] == (n, EntryMap(entries)[n]);
      } else if entries[k].0 == n {
        assert entries[k] == (n, EntryMap(entries)[n]);
      }
    }
  }

  class SnapshotFile {
    var file: Option<seq<byte>>
    var tmp: Option<seq<byte>>

    constructor (onDisk: Option<seq<byte>>)
      ensures file == onDisk && tmp == None
    {
      file, tmp := onDisk, None;
    }

    /** Write the temporary sibling, then rename it over the target. */
    method Save(c: Codec, info: Info, writeFails: bool, renameFails: bool) returns (ok: bool)
      modifies this
      ensures ok <==> !writeFails && !renameFails
      ensures ok ==> file == Some(c.encode(info)) && tmp == None
      ensures !ok ==> file == old(file)
      ensures !writeFails ==> tmp == None
    {
      if writeFails {
        tmp := Some([]);
        return false;
      }
      tmp := Some(c.encode(info));
      if renameFails {
        tmp := None;
        return false;
      }
      file, tmp := tmp, None;
      return true;
    }

    method Load(c: Codec) returns (r: LoadResult)
      ensures r == LoadBytes(c, file)
      ensures r == Absent <==> file == None
      ensures r == Unreadable <==> file.Some? && c.decode(file.value) == None
      ensures r.Loaded? ==> file.Some? && c.decode(file.value) == Some(r.info)
    {
      match file {
        case None => return Absent;
        case Some(bytes) =>
          var decoded := c.decode(bytes);
          if decoded.None? { return Unreadable; }
          return Loaded(decoded.value);
      }
    }

    /** `merge_snapshot`: an unreadable snapshot is an error and leaves the file alone. */
    method Merge(c: Codec, version: Option<string>, os: Option<string>, entries: seq<(string, Detail)>,
                 writeFails: bool, renameFails: bool) returns (ok: bool)
      requires Faithful(c)
      modifies this
      ensures ok <==> !old(LoadBytes(c, file)).Unreadable? && !writeFails && !renameFails
      ensures !ok ==> file == old(file)
      ensures ok ==> LoadBytes(c, file) == Loaded(Merged(old(LoadBytes(c, file)), version, os, EntryMap(entries)))
    {
      var existing := Load(c);
      if existing.Unreadable? { return false; }
      var merged := if existing.Loaded? && existing.info.version == version && existing.info.os == os
                    then existing.info else Info(version, os, map[]);
      ghost var base := merged.bundles;
      for k := 0 to |entries|
        invariant merged.version == version && merged.os == os
        invariant merged.bundles == base + EntryMap(entries[..k])
        invariant file == old(file)
      {
        assert entries[..k + 1][..k] == entries[..k];
        merged := merged.(bundles := merged.bundles[entries[k].0 := entries[k].1]);
        assert base + EntryMap(entries[..k + 1]) == (base + EntryMap(entries[..k]))[entries[k].0 := entries[k].1];
      }
      assert entries[..|entries|] == entries;
      assert merged == Merged(existing, version, os, EntryMap(entries));
      ok := Save(c, merged, writeFails, renameFails);
    }
  }

  function EntryMap(entries: seq<(string, Detail)>): map<string, Detail> {
    if entries == [] then map[]
    else EntryMap(entries[..|entries| - 1])[entries[|entries| - 1].0 := entries[|entries| - 1].1]
  }
}
