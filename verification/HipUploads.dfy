/**
 What many uploads over one connection come to at the peer.
 */
module HipUploads {
  import opened Common
  import opened Bytes
  import opened HipFrame
  import opened HipMux
  import opened HipMuxSteps

  /**
   Whatever the interleaving of up to 2^32 uploads, other requests and
   heartbeats: the peer reads back exactly the frames written, never rejects
   the session, and every acknowledgement it sends is OK, unique, and for
   exactly the bytes the client streamed for that id.  Once the writer has
   drained, every finished upload has been acknowledged.
   */
  lemma InterleavedUploadsArriveIntact(k: Config, trace: seq<Session>, steps: seq<Step>)
    requires ValidConfig(k) && IsRun(k, trace, steps)
    requires trace[|steps|].begun <= TWO32
    ensures var s := trace[|steps|];
            var arrived := ParseAll(WireAll(s.wire), MAX_DEFAULT_FRAME_BYTES).0;
            var server := Serve(k.codec, FRESH_SERVER, arrived);
            && arrived == s.wire
            && !server.failed
            && AcksAreTrue(s.uploads, server.acks)
            && (s.open && s.queue == [] ==> AcksAreComplete(s.uploads, server.acks))
  {
    var s := trace[|steps|];
    RunKeepsInv(k, trace, steps, |steps|);
    FrameListReadsBack(s.wire, MAX_DEFAULT_FRAME_BYTES);
    if s.queue == [] {
      assert s.wire + s.queue == s.wire;
    }
  }

  /** Cutting the connection at any byte loses a tail of frames and nothing else. */
  lemma CutConnectionStaysTrue(k: Config, trace: seq<Session>, steps: seq<Step>, cut: nat)
    requires ValidConfig(k) && IsRun(k, trace, steps)
    requires trace[|steps|].begun <= TWO32
    requires cut <= |WireAll(trace[|steps|].wire)|
    ensures var s := trace[|steps|];
            var arrived := ParseAll(WireAll(s.wire)[..cut], MAX_DEFAULT_FRAME_BYTES).0;
            var server := Serve(k.codec, FRESH_SERVER, arrived);
            arrived <= s.wire && !server.failed && AcksAreTrue(s.uploads, server.acks)
  {
    var s := trace[|steps|];
    RunKeepsInv(k, trace, steps, |steps|);
    CutStreamReadsPrefix(s.wire, cut, MAX_DEFAULT_FRAME_BYTES);
    var arrived := ParseAll(WireAll(s.wire)[..cut], MAX_DEFAULT_FRAME_BYTES).0;
    var later := s.wire[|arrived|..];
    assert s.wire == arrived + later;
    ServeAppend(k.codec, FRESH_SERVER, arrived, later);
    var w := Serve(k.codec, FRESH_SERVER, arrived);
    var full := Serve(k.codec, FRESH_SERVER, s.wire);
    ServeOnlyAdds(k.codec, w, later);
    forall i | 0 <= i < |w.acks| ensures AckIsTrue(s.uploads, w.acks[i]) {
      assert w.acks[i] == full.acks[i];
    }
  }
}
