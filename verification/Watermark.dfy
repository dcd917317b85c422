/**
 The per-region watermark file (src/service/watermark.rs): a map kept in
 memory behind a mutex and written whole, to a temporary sibling that is then
 renamed over the target, at every `set`.  The process may crash between any
 two steps.
 */
module Watermark {
  import opened Common
  import opened Bytes

  datatype Mark = Mark(assetVersion: string, assetHash: string, appVersion: string, bundleCount: nat, committedAt: int)

  type Marks = map<string, Mark>

  datatype Codec = Codec(encode: Marks -> seq<byte>, decode: seq<byte> -> Option<Marks>)

  ghost predicate Faithful(c: Codec) { forall m :: c.decode(c.encode(m)) == Some(m) && c.encode(m) != [] }

  /** What `open` makes of the file: an absent or empty one is an empty map, anything else must parse. */
  function Load(c: Codec, file: Option<seq<byte>>): Option<Marks> {
    if file.None? || file.value == [] then Some(map[]) else c.decode(file.value)
  }

  /** An absent and an empty file open as an empty store; only a file that does not parse is an error. */
  lemma OpenSays(c: Codec, bytes: seq<byte>)
    ensures Load(c, None) == Some(map[]) && Load(c, Some([])) == Some(map[])
    ensures Load(c, Some(bytes)) == None <==> bytes != [] && c.decode(bytes) == None
  {
  }

  class WatermarkStore {
    const codec: Codec
    var regions: Marks
    var file: Option<seq<byte>>
    var tmp: Option<seq<byte>>

    constructor (codec: Codec, file: Option<seq<byte>>, loaded: Marks)
      requires Load(codec, file) == Some(loaded)
      ensures this.codec == codec && this.file == file && regions == loaded
    {
      this.codec, this.file, this.tmp, regions := codec, file, None, loaded;
    }

    method Get(region: string) returns (r: Option<Mark>)
      ensures r == if region in regions then Some(regions[region]) else None
    {
      r := if region in regions then Some(regions[region]) else None;
    }

    /** Memory moves even if the disk does not; a later success then writes both changes. */
    method Set(region: string, mark: Mark, writeFails: bool, renameFails: bool) returns (ok: bool)
      requires Faithful(codec)
      modifies this
      ensures regions == old(regions)[region := mark]
      ensures ok <==> !writeFails && !renameFails
      ensures ok ==> Load(codec, file) == Some(regions)
      ensures !ok ==> file == old(file)
    {
      regions := regions[region := mark];
      var json := codec.encode(regions);
      if writeFails {
        tmp := Some([]);
        return false;
      }
      tmp := Some(json);
      if renameFails {
        return false;
      }
      file, tmp := tmp, None;
      ok := true;
    }
  }

  // ---------------------------------------------------------------- runs with crashes

  datatype Phase = Down | Ready | Writing(region: string) | Renaming(region: string)

  datatype State = State(regions: Marks, file: Option<seq<byte>>, tmp: Option<seq<byte>>, phase: Phase)

  datatype Step =
    | Open
    | BeginSet(region: string, mark: Mark)
    | TmpPartial(part: seq<byte>)
    | TmpWritten
    | Renamed
    | SetFails(leftover: Option<seq<byte>>)
    | Crash

  predicate Enabled(c: Codec, s: State, step: Step) {
    match step
    case Open => s.phase.Down? && Load(c, s.file).Some?
    case BeginSet(_, _) => s.phase.Ready?
    case TmpPartial(_) => s.phase.Writing?
    case TmpWritten => s.phase.Writing?
    case Renamed => s.phase.Renaming?
    case SetFails(_) => s.phase.Writing? || s.phase.Renaming?
    case Crash => true
  }

  function Apply(c: Codec, s: State, step: Step): State
    requires Enabled(c, s, step)
  {
    match step
    case Open => s.(regions := Load(c, s.file).value, phase := Ready)
    case BeginSet(region, mark) => s.(regions := s.regions[region := mark], phase := Writing(region))
    case TmpPartial(part) => s.(tmp := Some(part))
    case TmpWritten => s.(tmp := Some(c.encode(s.regions)), phase := Renaming(s.phase.region))
    case Renamed => s.(file := s.tmp, tmp := None, phase := Ready)
    case SetFails(leftover) => s.(tmp := leftover, phase := Ready)
    case Crash => s.(regions := map[], phase := Down)
  }

  ghost predicate IsRun(c: Codec, trace: seq<State>, steps: seq<Step>) {
    && Faithful(c)
    && |trace| == |steps| + 1
    && trace[0].phase == Down && trace[0].regions == map[] && Load(c, trace[0].file).Some?
    && forall i :: 0 <= i < |steps| ==> Enabled(c, trace[i], steps[i]) && trace[i + 1] == Apply(c, trace[i], steps[i])
  }

  /** The mark came from the initial file or from a `set` of this region begun before step `n`. */
  ghost predicate WasSet(c: Codec, trace: seq<State>, steps: seq<Step>, n: nat, region: string, mark: Mark)
    requires IsRun(c, trace, steps) && n <= |steps|
  {
    || (region in Load(c, trace[0].file).value && Load(c, trace[0].file).value[region] == mark)
    || (exists i :: 0 <= i < n && steps[i] == BeginSet(region, mark))
  }

  ghost predicate AllSet(c: Codec, trace: seq<State>, steps: seq<Step>, n: nat, m: Marks)
    requires IsRun(c, trace, steps) && n <= |steps|
  {
    forall region :: region in m ==> WasSet(c, trace, steps, n, region, m[region])
  }

  ghost predicate Sound(c: Codec, trace: seq<State>, steps: seq<Step>, n: nat)
    requires IsRun(c, trace, steps) && n <= |steps|
  {
    var s := trace[n];
    && Load(c, s.file).Some?
    && AllSet(c, trace, steps, n, Load(c, s.file).value)
    && AllSet(c, trace, steps, n, s.regions)
    && (s.phase.Renaming? ==> s.tmp == Some(c.encode(s.regions)))
  }

  lemma SetStays(c: Codec, trace: seq<State>, steps: seq<Step>, n: nat, m: Marks)
    requires IsRun(c, trace, steps) && n < |steps| && AllSet(c, trace, steps, n, m)
    ensures AllSet(c, trace, steps, n + 1, m)
    ensures steps[n].BeginSet? ==> AllSet(c, trace, steps, n + 1, m[steps[n].region := steps[n].mark])
  {
    hide Load, IsRun;
    forall region | region in m ensures WasSet(c, trace, steps, n + 1, region, m[region]) {
      assert WasSet(c, trace, steps, n, region, m[region]);
    }
    if steps[n].BeginSet? {
      assert WasSet(c, trace, steps, n + 1, steps[n].region, steps[n].mark);
    }
  }

  /** In every reachable state the file loads whole and holds only marks that were set. */
  lemma {:induction false} FileAlwaysLoads(c: Codec, trace: seq<State>, steps: seq<Step>, n: nat)
    requires IsRun(c, trace, steps) && n <= |steps|
    ensures Sound(c, trace, steps, n)
  {
    if n > 0 {
      assert AllSet(c, trace, steps, n, map[]);
      hide AllSet, Load, Apply, Enabled, Faithful;
      FileAlwaysLoads(c, trace, steps, n - 1);
      var s := trace[n - 1];
      SetStays(c, trace, steps, n - 1, Load(c, s.file).value);
      SetStays(c, trace, steps, n - 1, s.regions);
      StepLoads(c, s, steps[n - 1]);
    }
  }

  /** Where the marks in memory and on disk come from, step by step. */
  lemma StepLoads(c: Codec, s: State, step: Step)
    requires Faithful(c) && Enabled(c, s, step) && Load(c, s.file).Some?
    requires s.phase.Renaming? ==> s.tmp == Some(c.encode(s.regions))
    ensures var t := Apply(c, s, step);
            && (t.phase.Renaming? ==> t.tmp == Some(c.encode(t.regions)))
            && (Load(c, t.file) == Load(c, s.file) || Load(c, t.file) == Some(s.regions))
            && (t.regions == map[] || t.regions == s.regions || Some(t.regions) == Load(c, s.file)
                || (step.BeginSet? && t.regions == s.regions[step.region := step.mark]))
  {
  }

  /** The region's mark is on disk, in memory if the process is up, and in any file about to be renamed. */
  ghost predicate Holds(c: Codec, s: State, region: string, mark: Mark) {
    && Load(c, s.file).Some? && region in Load(c, s.file).value && Load(c, s.file).value[region] == mark
    && (!s.phase.Down? ==> region in s.regions && s.regions[region] == mark)
    && (s.phase.Renaming? ==> s.tmp == Some(c.encode(s.regions)))
  }

  /**
   A `set` that reported success survives everything: crashes, reopening, and
   failed or successful sets of other regions, until the same region is set
   again.
   */
  lemma {:induction false} AcknowledgedSetSurvives(c: Codec, trace: seq<State>, steps: seq<Step>, n: nat, m: nat)
    requires IsRun(c, trace, steps) && n < m <= |steps| && steps[n] == Renamed
    requires forall i :: n < i < m ==> !(steps[i].BeginSet? && steps[i].region == trace[n].phase.region)
    ensures var region := trace[n].phase.region;
            && region in trace[n].regions && Holds(c, trace[m], region, trace[n].regions[region])
    decreases m
  {
    var region := trace[n].phase.region;
    WrittenIsInMemory(c, trace, steps, n);
    if m == n + 1 {
      FileAlwaysLoads(c, trace, steps, n);
      assert trace[m] == Apply(c, trace[n], Renamed);
    } else {
      AcknowledgedSetSurvives(c, trace, steps, n, m - 1);
      assert trace[m] == Apply(c, trace[m - 1], steps[m - 1]);
    }
  }

  lemma {:induction false} WrittenIsInMemory(c: Codec, trace: seq<State>, steps: seq<Step>, n: nat)
    requires IsRun(c, trace, steps) && n <= |steps|
    ensures trace[n].phase.Writing? || trace[n].phase.Renaming? ==> trace[n].phase.region in trace[n].regions
  {
    if n > 0 {
      WrittenIsInMemory(c, trace, steps, n - 1);
      assert trace[n] == Apply(c, trace[n - 1], steps[n - 1]);
    }
  }

  /** Memory and disk agree. */
  ghost predicate Synced(c: Codec, s: State) { Load(c, s.file) == Some(s.regions) }

  /** Step `m` was the last to bring them together: an open or a successful set, with no failed set after it. */
  ghost predicate SyncedSince(steps: seq<Step>, m: nat, n: nat)
    requires m < n <= |steps|
  {
    (steps[m].Open? || steps[m].Renamed?) && forall i :: m < i < n ==> !steps[i].SetFails? && !steps[i].Crash?
  }

  /** While a set is under way memory is one mark ahead of the file; otherwise they agree. */
  ghost predicate InStep(c: Codec, s: State) {
    match s.phase
    case Down => false
    case Ready => Synced(c, s)
    case Writing(region) => OneAhead(c, s, region)
    case Renaming(region) => OneAhead(c, s, region)
  }

  ghost predicate OneAhead(c: Codec, s: State, region: string) {
    Load(c, s.file).Some? && region in s.regions && s.regions == Load(c, s.file).value[region := s.regions[region]]
  }

  /** Since the last open or successful set, and until a set fails, memory is ahead only by the set under way. */
  lemma {:induction false} InStepUntilFailure(c: Codec, trace: seq<State>, steps: seq<Step>, m: nat, n: nat)
    requires IsRun(c, trace, steps) && m < n <= |steps| && SyncedSince(steps, m, n)
    ensures InStep(c, trace[n])
    decreases n
  {
    var s := trace[n - 1];
    assert trace[n] == Apply(c, s, steps[n - 1]);
    FileAlwaysLoads(c, trace, steps, n - 1);
    hide AllSet;
    if n > m + 1 {
      InStepUntilFailure(c, trace, steps, m, n - 1);
    }
  }

  /**
   Memory ahead of the file: a set that fails when they agreed before leaves
   them apart exactly if its mark was not the one already there.
   */
  lemma FailedSetLeavesMemoryAheadIff(c: Codec, trace: seq<State>, steps: seq<Step>, m: nat, n: nat, k: nat)
    requires IsRun(c, trace, steps) && m < n < k < |steps| && SyncedSince(steps, m, k)
    requires trace[n].phase.Ready? && steps[n].BeginSet? && steps[k].SetFails?
    requires forall i :: n < i < k ==> steps[i].TmpPartial? || steps[i].TmpWritten?
    ensures var (region, mark) := (steps[n].region, steps[n].mark);
            Synced(c, trace[k + 1]) <==> region in trace[n].regions && trace[n].regions[region] == mark
  {
    InStepUntilFailure(c, trace, steps, m, n);
    SetUnderWay(c, trace, steps, n, k);
    assert trace[k + 1] == Apply(c, trace[k], steps[k]);
    var (m0, region, mark) := (trace[n].regions, steps[n].region, steps[n].mark);
    assert m0 == m0[region := mark] <==> region in m0 && m0[region] == mark;
  }

  lemma {:induction false} SetUnderWay(c: Codec, trace: seq<State>, steps: seq<Step>, n: nat, k: nat)
    requires IsRun(c, trace, steps) && n < k <= |steps| && trace[n].phase.Ready? && steps[n].BeginSet?
    requires forall i :: n < i < k ==> steps[i].TmpPartial? || steps[i].TmpWritten?
    ensures trace[k].regions == trace[n].regions[steps[n].region := steps[n].mark] && trace[k].file == trace[n].file
    decreases k
  {
    assert trace[k] == Apply(c, trace[k - 1], steps[k - 1]);
    if k > n + 1 { SetUnderWay(c, trace, steps, n, k - 1); }
  }
}
