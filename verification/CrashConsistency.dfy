/** The theorem on the on-disk snapshot. */
module CrashConsistency {
  import opened BundleDiff
  import opened Attempt
  import opened AttemptSafety

  /**
   Crash consistency.  In every reachable state, over any number of attempts
   and with a crash between any two steps, the snapshot file is absent or
   decodes whole, and every (name, checksum) in it was in the initial snapshot,
   was listed in a COMMIT the gateway applied, or was answered SKIP.
   */
  lemma SnapshotIsAlwaysJustified(c: Config, trace: seq<State>, steps: seq<Step>)
    requires Faithful(c.codec) && IsRun(c, trace, steps)
    ensures var s := trace[|steps|];
            match LoadBytes(c.codec, s.w.file)
            case Absent => true
            case Loaded(i) => forall n :: n in i.bundles ==>
              Known(c, InitialBundles(c, trace[0].w), s.w, n, i.bundles[n].crc)
            case Unreadable => false
  {
    hide Known;
    RunKeepsInv(c, trace, steps, |steps|);
  }
}
