/**
 Many uploads over one HIP connection: the client side of `upload_stream` and
 `spawn_writer` (src/core/hip/client.rs) against the session loop of
 examples/hip_mock_server.rs.

 The message bodies and SHA-256 are parameters.  A hasher is represented by the
 bytes it has absorbed, so incremental hashing is hashing of the concatenation.
 */
module HipMux {
  import opened Common
  import opened Bytes
  import opened HipFrame

  const WRITER_QUEUE: nat := 64

  datatype BeginMsg = BeginMsg(streamId: nat, path: string, size: nat)
  datatype EndMsg = EndMsg(streamId: nat, totalBytes: nat, sha256: string)

  datatype Codec = Codec(
    encodeBegin: BeginMsg -> seq<byte>, decodeBegin: seq<byte> -> Option<BeginMsg>,
    encodeEnd: EndMsg -> seq<byte>, decodeEnd: seq<byte> -> Option<EndMsg>,
    readable: seq<byte> -> bool, sha256: seq<byte> -> string)

  ghost predicate Faithful(c: Codec) {
    && (forall m :: c.decodeBegin(c.encodeBegin(m)) == Some(m))
    && (forall m :: c.decodeEnd(c.encodeEnd(m)) == Some(m))
  }

  function BeginFrame(c: Codec, id: nat, path: string, size: nat): Frame {
    Frame(UploadBegin, c.encodeBegin(BeginMsg(id, path, size)))
  }

  function ChunkFrame(id: nat, body: seq<byte>): Frame {
    Frame(UploadChunk, BigEndian(id, 4) + body)
  }

  function EndFrame(c: Codec, id: nat, content: seq<byte>): Frame {
    Frame(UploadEnd, c.encodeEnd(EndMsg(id, |content|, c.sha256(content))))
  }

  // ---------------------------------------------------------------- server

  datatype Inflight = Inflight(path: string, expected: nat, received: nat, absorbed: seq<byte>)

  /** One UPLOAD_ACK, with the path and the content that were acknowledged. */
  datatype Acked = Acked(streamId: nat, path: string, content: seq<byte>, ok: bool)

  datatype Server = Server(uploads: map<nat, Inflight>, acks: seq<Acked>,
                           pongs: nat, replies: nat, done: bool, failed: bool)

  const FRESH_SERVER := Server(map[], [], 0, 0, false, false)

  /** The body of the session loop on one frame. */
  function ServerStep(c: Codec, s: Server, f: Frame): Server {
    if s.done || s.failed then s else
    match f.frameType
    case CheckBatch => if c.readable(f.payload) then s.(replies := s.replies + 1) else s.(failed := true)
    case Commit => if c.readable(f.payload) then s.(replies := s.replies + 1) else s.(failed := true)
    case UploadBegin =>
      (match c.decodeBegin(f.payload)
       case None => s.(failed := true)
       case Some(m) => s.(uploads := s.uploads[m.streamId := Inflight(m.path, m.size, 0, [])]))
    case UploadChunk =>
      if |f.payload| < 4 then s.(failed := true) else
      var id := FromBigEndian(f.payload[..4]);
      if id !in s.uploads then s.(failed := true) else
      var u := s.uploads[id];
      var body := f.payload[4..];
      s.(uploads := s.uploads[id := u.(received := u.received + |body|, absorbed := u.absorbed + body)])
    case UploadEnd =>
      (match c.decodeEnd(f.payload)
       case None => s.(failed := true)
       case Some(m) =>
         if m.streamId !in s.uploads then s.(failed := true) else
         var u := s.uploads[m.streamId];
         var ok := c.sha256(u.absorbed) == m.sha256 && u.received == u.expected;
         s.(uploads := s.uploads - {m.streamId},
            acks := s.acks + [Acked(m.streamId, u.path, u.absorbed, ok)]))
    case Ping => s.(pongs := s.pongs + 1)
    case Pong => s
    case Bye => s.(done := true)
    case _ => s.(failed := true)
  }

  function Serve(c: Codec, s: Server, fs: seq<Frame>): Server
    decreases |fs|
  {
    if fs == [] then s else Serve(c, ServerStep(c, s, fs[0]), fs[1..])
  }

  lemma {:induction false} ServeAppend(c: Codec, s: Server, xs: seq<Frame>, ys: seq<Frame>)
    ensures Serve(c, s, xs + ys) == Serve(c, Serve(c, s, xs), ys)
    decreases |xs|
  {
    if xs == [] {
      assert xs + ys == ys;
    } else {
      assert (xs + ys)[1..] == xs[1..] + ys;
      ServeAppend(c, ServerStep(c, s, xs[0]), xs[1..], ys);
    }
  }

  lemma ServeSnoc(c: Codec, s: Server, xs: seq<Frame>, f: Frame)
    ensures Serve(c, s, xs + [f]) == ServerStep(c, Serve(c, s, xs), f)
  {
    ServeAppend(c, s, xs, [f]);
    var mid := Serve(c, s, xs);
    assert Serve(c, mid, [f]) == Serve(c, ServerStep(c, mid, f), [f][1..]);
  }

  /** Acknowledgements are never withdrawn and a failed session stays failed. */
  lemma {:induction false} ServeOnlyAdds(c: Codec, s: Server, fs: seq<Frame>)
    ensures s.acks <= Serve(c, s, fs).acks
    ensures s.failed ==> Serve(c, s, fs).failed
    decreases |fs|
  {
    if fs != [] {
      ServeOnlyAdds(c, ServerStep(c, s, fs[0]), fs[1..]);
    }
  }

  /** One more pong sent earlier changes nothing else later. */
  lemma {:induction false} PongCommutes(c: Codec, s: Server, fs: seq<Frame>, n: nat)
    ensures Serve(c, s.(pongs := n), fs) ==
            Serve(c, s, fs).(pongs := Serve(c, s.(pongs := n), fs).pongs)
    decreases |fs|
  {
    if fs != [] {
      var t := ServerStep(c, s, fs[0]);
      var t' := ServerStep(c, s.(pongs := n), fs[0]);
      assert t' == t.(pongs := t'.pongs);
      PongCommutes(c, t, fs[1..], t'.pongs);
    }
  }

  /** The session loop itself, over the byte stream of the connection. */
  class MockServer {
    var uploads: map<nat, Inflight>
    var acks: seq<Acked>
    var pongs: nat
    var replies: nat
    var done: bool
    var failed: bool

    ghost function State(): Server
      reads this
    {
      Server(uploads, acks, pongs, replies, done, failed)
    }

    constructor ()
      ensures State() == FRESH_SERVER
    {
      uploads, acks, pongs, replies, done, failed := map[], [], 0, 0, false, false;
    }

    method Handle(c: Codec, f: Frame)
      requires !done && !failed
      modifies this
      ensures State() == ServerStep(c, old(State()), f)
    {
      match f.frameType {
        case CheckBatch =>
          if c.readable(f.payload) { replies := replies + 1; } else { failed := true; }
        case Commit =>
          if c.readable(f.payload) { replies := replies + 1; } else { failed := true; }
        case UploadBegin =>
          match c.decodeBegin(f.payload) {
            case None => failed := true;
            case Some(m) => uploads := uploads[m.streamId := Inflight(m.path, m.size, 0, [])];
          }
        case UploadChunk =>
          if |f.payload| < 4 { failed := true; return; }
          var id := FromBigEndian(f.payload[..4]);
          var body := f.payload[4..];
          if id !in uploads { failed := true; return; }
          var u := uploads[id];
          uploads := uploads[id := u.(received := u.received + |body|, absorbed := u.absorbed + body)];
        case UploadEnd =>
          match c.decodeEnd(f.payload) {
            case None => failed := true;
            case Some(m) =>
              if m.streamId !in uploads { failed := true; return; }
              var u := uploads[m.streamId];
              uploads := uploads - {m.streamId};
              var ok := c.sha256(u.absorbed) == m.sha256 && u.received == u.expected;
              acks := acks + [Acked(m.streamId, u.path, u.absorbed, ok)];
          }
        case Ping => pongs := pongs + 1;
        case Pong =>
        case Bye => done := true;
        case _ => failed := true;
      }
    }

    /** Read and handle frames until the stream ends or the session does. */
    method ServeSession(c: Codec, reader: ByteStream)
      requires !done && !failed
      modifies this, reader
      ensures State() == Serve(c, old(State()), ParseAll(old(reader.unread), MAX_DEFAULT_FRAME_BYTES).0)
    {
      ghost var all := ParseAll(reader.unread, MAX_DEFAULT_FRAME_BYTES).0;
      ghost var before := State();
      while !done && !failed
        invariant Serve(c, before, all) ==
                  Serve(c, State(), ParseAll(reader.unread, MAX_DEFAULT_FRAME_BYTES).0)
        decreases |reader.unread|, !done && !failed
      {
        ghost var bytes := reader.unread;
        var r := ReadFrame(reader, MAX_DEFAULT_FRAME_BYTES);
        if r.Err? {
          assert ParseAll(bytes, MAX_DEFAULT_FRAME_BYTES).0 == [];
          return;
        }
        ghost var later := ParseAll(reader.unread, MAX_DEFAULT_FRAME_BYTES).0;
        assert ParseAll(bytes, MAX_DEFAULT_FRAME_BYTES).0 == [r.value] + later;
        Handle(c, r.value);
        assert ([r.value] + later)[1..] == later;
      }
      StoppedIgnores(c, State(), ParseAll(reader.unread, MAX_DEFAULT_FRAME_BYTES).0);
    }
  }

  lemma {:induction false} StoppedIgnores(c: Codec, s: Server, fs: seq<Frame>)
    requires s.done || s.failed
    ensures Serve(c, s, fs) == s
    decreases |fs|
  {
    if fs != [] {
      StoppedIgnores(c, s, fs[1..]);
    }
  }

  // What an acknowledgement means, whoever sends the frames.

  ghost predicate Began(c: Codec, fs: seq<Frame>, id: nat, path: string, size: nat) {
    exists b :: 0 <= b < |fs| && fs[b].frameType == UploadBegin && c.decodeBegin(fs[b].payload) == Some(BeginMsg(id, path, size))
  }

  ghost predicate EndedWith(c: Codec, fs: seq<Frame>, id: nat, sha256: string) {
    exists e :: 0 <= e < |fs| && fs[e].frameType == UploadEnd && c.decodeEnd(fs[e].payload).Some?
                && c.decodeEnd(fs[e].payload).value.streamId == id && c.decodeEnd(fs[e].payload).value.sha256 == sha256
  }

  /** OK exactly if the bytes received have the size BEGIN announced and the hash END announced. */
  ghost predicate Judged(c: Codec, fs: seq<Frame>, a: Acked) {
    exists size: nat, sha256: string :: Began(c, fs, a.streamId, a.path, size) && EndedWith(c, fs, a.streamId, sha256)
                                        && (a.ok <==> |a.content| == size && c.sha256(a.content) == sha256)
  }

  ghost predicate Tracks(c: Codec, fs: seq<Frame>, v: Server) {
    && (forall id :: id in v.uploads ==> && v.uploads[id].received == |v.uploads[id].absorbed|
                                         && Began(c, fs, id, v.uploads[id].path, v.uploads[id].expected))
    && (forall i :: 0 <= i < |v.acks| ==> Judged(c, fs, v.acks[i]))
  }

  lemma SeenStays(c: Codec, fs: seq<Frame>, f: Frame)
    ensures forall id, path, size :: Began(c, fs, id, path, size) ==> Began(c, fs + [f], id, path, size)
    ensures forall id, sha :: EndedWith(c, fs, id, sha) ==> EndedWith(c, fs + [f], id, sha)
    ensures forall a :: Judged(c, fs, a) ==> Judged(c, fs + [f], a)
  {
    var more := fs + [f];
    assert forall i :: 0 <= i < |fs| ==> more[i] == fs[i];
    forall id, path, size | Began(c, fs, id, path, size) ensures Began(c, more, id, path, size) {
      var b :| 0 <= b < |fs| && fs[b].frameType == UploadBegin && c.decodeBegin(fs[b].payload) == Some(BeginMsg(id, path, size));
      assert more[b] == fs[b];
    }
    forall id, sha | EndedWith(c, fs, id, sha) ensures EndedWith(c, more, id, sha) {
      var e :| 0 <= e < |fs| && fs[e].frameType == UploadEnd && c.decodeEnd(fs[e].payload).Some?
               && c.decodeEnd(fs[e].payload).value.streamId == id && c.decodeEnd(fs[e].payload).value.sha256 == sha;
      assert more[e] == fs[e];
    }
  }

  lemma NewFrameSeen(c: Codec, fs: seq<Frame>, f: Frame)
    ensures f.frameType == UploadBegin && c.decodeBegin(f.payload).Some? ==>
              var m := c.decodeBegin(f.payload).value; Began(c, fs + [f], m.streamId, m.path, m.size)
    ensures f.frameType == UploadEnd && c.decodeEnd(f.payload).Some? ==>
              var m := c.decodeEnd(f.payload).value; EndedWith(c, fs + [f], m.streamId, m.sha256)
  {
    assert (fs + [f])[|fs|] == f;
  }

  lemma StepTracks(c: Codec, fs: seq<Frame>, v: Server, f: Frame)
    requires Tracks(c, fs, v)
    ensures Tracks(c, fs + [f], ServerStep(c, v, f))
  {
    SeenStays(c, fs, f);
    NewFrameSeen(c, fs, f);
    hide Began, EndedWith;
    var t := ServerStep(c, v, f);
    forall i | 0 <= i < |t.acks| ensures Judged(c, fs + [f], t.acks[i]) {
      if i < |v.acks| {
        assert t.acks[i] == v.acks[i] && Judged(c, fs, v.acks[i]);
      } else {
        var m := c.decodeEnd(f.payload).value;
        var u := v.uploads[m.streamId];
        assert Began(c, fs + [f], m.streamId, u.path, u.expected) && EndedWith(c, fs + [f], m.streamId, m.sha256);
      }
    }
  }

  /** Whatever frames arrive, from any client: an upload is acknowledged OK exactly if it is what it claimed to be. */
  lemma {:induction false} AcksAreJudged(c: Codec, fs: seq<Frame>)
    ensures Tracks(c, fs, Serve(c, FRESH_SERVER, fs))
  {
    if fs != [] {
      hide Tracks, ServerStep, Serve;
      var init, last := fs[..|fs| - 1], fs[|fs| - 1];
      AcksAreJudged(c, init);
      ServeSnoc(c, FRESH_SERVER, init, last);
      StepTracks(c, init, Serve(c, FRESH_SERVER, init), last);
      assert fs == init + [last];
    }
  }

  // ---------------------------------------------------------------- client

  /** A chunk leads with its stream id, most significant byte first, and END announces the length and hash of the whole. */
  lemma FramesSay(c: Codec, id: nat, body: seq<byte>, path: string, size: nat)
    requires Faithful(c)
    ensures var chunk := ChunkFrame(id, body);
            && chunk.frameType == UploadChunk
            && chunk.payload == [id / 16777216 % 256, id / 65536 % 256, id / 256 % 256, id % 256] + body
    ensures var end := EndFrame(c, id, body);
            end.frameType == UploadEnd && c.decodeEnd(end.payload) == Some(EndMsg(id, |body|, c.sha256(body)))
    ensures var begin := BeginFrame(c, id, path, size);
            begin.frameType == UploadBegin && c.decodeBegin(begin.payload) == Some(BeginMsg(id, path, size))
  {
    FieldBytes(id);
  }

  /**
   The chunk loop of `upload_stream`: read, hash and frame until end of file,
   then UPLOAD_END if the declared size was met.  `blocks` is what the reader
   returns call by call; an empty read is end of file.
   */
  method UploadStream(c: Codec, id: nat, path: string, size: nat, blocks: seq<seq<byte>>)
    returns (frames: seq<Frame>, ok: bool)
    requires forall i :: 0 <= i < |blocks| ==> blocks[i] != []
    ensures ok <==> |Flatten(blocks)| == size
    ensures ok ==> frames == [BeginFrame(c, id, path, size)]
                             + seq(|blocks|, i requires 0 <= i < |blocks| => ChunkFrame(id, blocks[i]))
                             + [EndFrame(c, id, Flatten(blocks))]
    ensures !ok ==> frames == [BeginFrame(c, id, path, size)]
                              + seq(|blocks|, i requires 0 <= i < |blocks| => ChunkFrame(id, blocks[i]))
  {
    frames := [BeginFrame(c, id, path, size)];
    var hasher: seq<byte> := [];
    var totalBytes := 0;
    var k := 0;
    while k < |blocks|
      invariant k <= |blocks|
      invariant hasher == Flatten(blocks[..k]) && totalBytes == |hasher|
      invariant frames == [BeginFrame(c, id, path, size)]
                          + seq(k, i requires 0 <= i < |blocks| => ChunkFrame(id, blocks[i]))
    {
      assert blocks[..k + 1] == blocks[..k] + [blocks[k]];
      FlattenSnoc(blocks[..k], blocks[k]);
      hasher := hasher + blocks[k];
      totalBytes := totalBytes + |blocks[k]|;
      frames := frames + [ChunkFrame(id, blocks[k])];
      k := k + 1;
    }
    assert blocks[..k] == blocks;
    if totalBytes != size {
      return frames, false;
    }
    frames := frames + [EndFrame(c, id, hasher)];
    ok := true;
  }

  datatype Phase =
    | Drawn        // has its id and its waiter, BEGIN not yet sent
    | Streaming
    | Ended
    | Abandoned    // given up after BEGIN
    | Withdrawn    // given up before BEGIN

  /** The peer has seen, or will see, BEGIN and no END. */
  predicate OnServer(p: Phase) { p.Streaming? || p.Abandoned? }

  datatype Upload = Upload(path: string, declared: nat, sent: seq<byte>, phase: Phase)

  /**
   The sending half of a session: ids handed out so far, every upload started,
   the writer's bounded queue, and the frames written to the connection.
   */
  datatype Session = Session(begun: nat, uploads: map<nat, Upload>,
                             queue: seq<Frame>, wire: seq<Frame>, open: bool, closing: bool)

  datatype Config = Config(codec: Codec, maxFrameBytes: nat, chunkSize: nat)

  ghost predicate ValidConfig(k: Config) {
    Faithful(k.codec) && k.maxFrameBytes <= MAX_DEFAULT_FRAME_BYTES
  }

  datatype Step =
    | DrawId(path: string, size: nat)
    | SendBegin(id: nat)
    | SendChunk(id: nat, body: seq<byte>)
    | FinishUpload(id: nat)
    | AbandonUpload(id: nat)
    | SendOther(frame: Frame)
    | SendBye
    | WriterSend
    | WriterPing
    | Disconnect

  /** `fetch_add` on an `AtomicU32` that starts at one. */
  function NextId(begun: nat): nat { (begun + 1) % TWO32 }

  predicate CanSend(s: Session) { s.open && !s.closing && |s.queue| < WRITER_QUEUE }

  predicate Streams(s: Session, id: nat) { id in s.uploads && s.uploads[id].phase == Streaming }

  predicate Enabled(k: Config, s: Session, step: Step) {
    match step
    case DrawId(_, _) => true
    case SendBegin(id) => CanSend(s) && id in s.uploads && s.uploads[id].phase == Drawn
    case SendChunk(id, body) => CanSend(s) && Streams(s, id) && 0 < |body| <= k.chunkSize
    case FinishUpload(id) => CanSend(s) && Streams(s, id) && |s.uploads[id].sent| == s.uploads[id].declared
    case AbandonUpload(id) => id in s.uploads && (s.uploads[id].phase == Drawn || s.uploads[id].phase == Streaming)
    case SendOther(f) => CanSend(s) && (f.frameType == Pong ||
                         ((f.frameType == CheckBatch || f.frameType == Commit) && k.codec.readable(f.payload)))
    case SendBye => CanSend(s)
    case WriterSend => s.open && s.queue != []
    case WriterPing => s.open
    case Disconnect => s.open
  }

  function Enqueue(s: Session, f: Frame): Session { s.(queue := s.queue + [f]) }

  /** One `write_frame`: an oversized frame ends the writer task and drops its queue. */
  function Write(k: Config, s: Session, f: Frame, left: seq<Frame>): Session {
    if |f.payload| + 1 > k.maxFrameBytes then s.(open := false, queue := [])
    else s.(wire := s.wire + [f], queue := left)
  }

  function Apply(k: Config, s: Session, step: Step): Session
    requires Enabled(k, s, step)
  {
    match step
    case DrawId(path, size) =>
      s.(begun := s.begun + 1, uploads := s.uploads[NextId(s.begun) := Upload(path, size, [], Drawn)])
    case SendBegin(id) =>
      var u := s.uploads[id];
      Enqueue(s.(uploads := s.uploads[id := u.(phase := Streaming)]), BeginFrame(k.codec, id, u.path, u.declared))
    case SendChunk(id, body) =>
      var u := s.uploads[id];
      Enqueue(s.(uploads := s.uploads[id := u.(sent := u.sent + body)]), ChunkFrame(id, body))
    case FinishUpload(id) =>
      var u := s.uploads[id];
      Enqueue(s.(uploads := s.uploads[id := u.(phase := Ended)]), EndFrame(k.codec, id, u.sent))
    case AbandonUpload(id) =>
      var u := s.uploads[id];
      s.(uploads := s.uploads[id := u.(phase := if u.phase == Drawn then Withdrawn else Abandoned)])
    case SendOther(f) => Enqueue(s, f)
    case SendBye => Enqueue(s.(closing := true), Frame(Bye, []))
    case WriterSend => Write(k, s, s.queue[0], s.queue[1..])
    case WriterPing => Write(k, s, Frame(Ping, []), s.queue)
    case Disconnect => s.(open := false, queue := [])
  }

  const FRESH_SESSION := Session(0, map[], [], [], true, false)

  ghost predicate IsRun(k: Config, trace: seq<Session>, steps: seq<Step>) {
    && |trace| == |steps| + 1
    && trace[0] == FRESH_SESSION
    && forall i :: 0 <= i < |steps| ==> Enabled(k, trace[i], steps[i]) && trace[i + 1] == Apply(k, trace[i], steps[i])
  }

  // ---------------------------------------------------------------- invariant

  /** Every id in use came from the counter and the counter has not wrapped onto it. */
  ghost predicate IdsIssued(s: Session) {
    forall id :: id in s.uploads ==> id < TWO32 && (id - 1) % TWO32 < s.begun
  }

  ghost predicate AckIsTrue(uploads: map<nat, Upload>, a: Acked) {
    && a.ok
    && a.streamId in uploads
    && uploads[a.streamId].phase == Ended
    && a.content == uploads[a.streamId].sent
    && |a.content| == uploads[a.streamId].declared
    && a.path == uploads[a.streamId].path
  }

  ghost predicate AcksAreTrue(uploads: map<nat, Upload>, acks: seq<Acked>) {
    && (forall i :: 0 <= i < |acks| ==> AckIsTrue(uploads, acks[i]))
    && (forall i, j :: 0 <= i < j < |acks| ==> acks[i].streamId != acks[j].streamId)
  }

  ghost predicate AcksAreComplete(uploads: map<nat, Upload>, acks: seq<Acked>) {
    forall id :: id in uploads && uploads[id].phase == Ended ==>
      exists i :: 0 <= i < |acks| && acks[i].streamId == id
  }

  ghost predicate OpenStreamsMatch(uploads: map<nat, Upload>, v: Server) {
    && (forall id :: id in v.uploads <==> id in uploads && OnServer(uploads[id].phase))
    && (forall id :: id in v.uploads ==>
         v.uploads[id] == Inflight(uploads[id].path, uploads[id].declared, |uploads[id].sent|, uploads[id].sent))
  }

  /** What the server will know once the writer's queue has drained as well. */
  ghost predicate Mirrors(s: Session, v: Server) {
    && !v.failed
    && (v.done ==> s.closing)
    && OpenStreamsMatch(s.uploads, v)
    && AcksAreTrue(s.uploads, v.acks)
    && AcksAreComplete(s.uploads, v.acks)
  }

  /** No byte goes out before BEGIN. */
  ghost predicate NothingSentYet(s: Session) {
    forall id :: id in s.uploads && s.uploads[id].phase == Drawn ==> s.uploads[id].sent == []
  }

  ghost predicate Inv(k: Config, s: Session) {
    && IdsIssued(s)
    && NothingSentYet(s)
    && (forall i :: 0 <= i < |s.wire| ==> |s.wire[i].payload| + 1 <= k.maxFrameBytes)
    && (s.open ==> Mirrors(s, Serve(k.codec, FRESH_SERVER, s.wire + s.queue)))
    && !Serve(k.codec, FRESH_SERVER, s.wire).failed
    && AcksAreTrue(s.uploads, Serve(k.codec, FRESH_SERVER, s.wire).acks)
  }
}

/** Every step of a client or the writer keeps the peer in step with the uploads. */
module HipMuxSteps {
  import opened Common
  import opened Bytes
  import opened HipFrame
  import opened HipMux

  /** The server's state after the written frames is an earlier stage of the mirrored one. */
  lemma WrittenIsEarlier(k: Config, s: Session)
    requires Mirrors(s, Serve(k.codec, FRESH_SERVER, s.wire + s.queue))
    ensures !Serve(k.codec, FRESH_SERVER, s.wire).failed
    ensures AcksAreTrue(s.uploads, Serve(k.codec, FRESH_SERVER, s.wire).acks)
  {
    var w := Serve(k.codec, FRESH_SERVER, s.wire);
    ServeAppend(k.codec, FRESH_SERVER, s.wire, s.queue);
    ServeOnlyAdds(k.codec, w, s.queue);
    var v := Serve(k.codec, FRESH_SERVER, s.wire + s.queue);
    forall i | 0 <= i < |w.acks| ensures AckIsTrue(s.uploads, w.acks[i]) {
      assert w.acks[i] == v.acks[i];
    }
  }

  /** Drawing an id is a matter of the client alone. */
  lemma DrawKeeps(k: Config, s: Session, path: string, size: nat, v: Server)
    requires IdsIssued(s) && s.begun < TWO32
    ensures var t := Apply(k, s, DrawId(path, size));
            && IdsIssued(t)
            && (NothingSentYet(s) ==> NothingSentYet(t))
            && (AcksAreTrue(s.uploads, v.acks) ==> AcksAreTrue(t.uploads, v.acks))
            && (Mirrors(s, v) ==> Mirrors(t, v))
  {
    var id := NextId(s.begun);
    assert (id - 1) % TWO32 == s.begun;
    assert id !in s.uploads;
    var t := Apply(k, s, DrawId(path, size));
    if AcksAreTrue(s.uploads, v.acks) {
      forall i | 0 <= i < |v.acks| ensures AckIsTrue(t.uploads, v.acks[i]) {
        assert AckIsTrue(s.uploads, v.acks[i]);
      }
    }
  }

  lemma IdsKept(k: Config, s: Session, step: Step)
    requires IdsIssued(s) && NothingSentYet(s) && Enabled(k, s, step) && !step.DrawId?
    ensures IdsIssued(Apply(k, s, step)) && NothingSentYet(Apply(k, s, step))
  {
  }

  /** BEGIN frames may go out in any order of ids. */
  lemma BeginMirrors(k: Config, s: Session, id: nat, v: Server)
    requires ValidConfig(k) && Enabled(k, s, SendBegin(id)) && IdsIssued(s) && Mirrors(s, v)
    requires NothingSentYet(s)
    ensures var u := s.uploads[id];
            Mirrors(Apply(k, s, SendBegin(id)), ServerStep(k.codec, v, BeginFrame(k.codec, id, u.path, u.declared)))
  {
    var t := Apply(k, s, SendBegin(id));
    forall i | 0 <= i < |v.acks| ensures AckIsTrue(t.uploads, v.acks[i]) {
      assert AckIsTrue(s.uploads, v.acks[i]);
    }
  }

  lemma ChunkMirrors(k: Config, s: Session, id: nat, body: seq<byte>, v: Server)
    requires ValidConfig(k) && Enabled(k, s, SendChunk(id, body)) && IdsIssued(s) && Mirrors(s, v)
    ensures Mirrors(Apply(k, s, SendChunk(id, body)), ServerStep(k.codec, v, ChunkFrame(id, body)))
  {
    var f := ChunkFrame(id, body);
    WidthLimits();
    BigEndianRoundTrip(id, 4);
    assert f.payload[..4] == BigEndian(id, 4) && f.payload[4..] == body;
    var t := Apply(k, s, SendChunk(id, body));
    forall i | 0 <= i < |v.acks| ensures AckIsTrue(t.uploads, v.acks[i]) {
      assert AckIsTrue(s.uploads, v.acks[i]);
    }
  }

  lemma FinishMirrors(k: Config, s: Session, id: nat, v: Server)
    requires ValidConfig(k) && Enabled(k, s, FinishUpload(id)) && Mirrors(s, v)
    ensures Mirrors(Apply(k, s, FinishUpload(id)), ServerStep(k.codec, v, EndFrame(k.codec, id, s.uploads[id].sent)))
  {
    var t := Apply(k, s, FinishUpload(id));
    var v' := ServerStep(k.codec, v, EndFrame(k.codec, id, s.uploads[id].sent));
    assert v'.acks == v.acks + [Acked(id, s.uploads[id].path, s.uploads[id].sent, true)];
    forall i | 0 <= i < |v'.acks| ensures AckIsTrue(t.uploads, v'.acks[i]) {
      if i < |v.acks| {
        assert AckIsTrue(s.uploads, v.acks[i]);
      }
    }
    forall x | x in t.uploads && t.uploads[x].phase == Ended
      ensures exists i :: 0 <= i < |v'.acks| && v'.acks[i].streamId == x
    {
      if x == id {
        assert v'.acks[|v.acks|].streamId == x;
      } else {
        var i :| 0 <= i < |v.acks| && v.acks[i].streamId == x;
        assert v'.acks[i].streamId == x;
      }
    }
  }

  lemma AbandonKeeps(k: Config, s: Session, id: nat, v: Server)
    requires Enabled(k, s, AbandonUpload(id))
    ensures AcksAreTrue(s.uploads, v.acks) ==> AcksAreTrue(Apply(k, s, AbandonUpload(id)).uploads, v.acks)
    ensures Mirrors(s, v) ==> Mirrors(Apply(k, s, AbandonUpload(id)), v)
  {
    var t := Apply(k, s, AbandonUpload(id));
    if AcksAreTrue(s.uploads, v.acks) {
      forall i | 0 <= i < |v.acks| ensures AckIsTrue(t.uploads, v.acks[i]) {
        assert AckIsTrue(s.uploads, v.acks[i]);
      }
    }
  }

  /** A frame put on the queue is the next one the mirrored server handles. */
  lemma Enqueued(k: Config, s: Session, t: Session, f: Frame)
    requires t.wire == s.wire && t.queue == s.queue + [f] && t.open
    requires forall i :: 0 <= i < |s.wire| ==> |s.wire[i].payload| + 1 <= k.maxFrameBytes
    requires IdsIssued(t) && NothingSentYet(t)
    requires Mirrors(t, ServerStep(k.codec, Serve(k.codec, FRESH_SERVER, s.wire + s.queue), f))
    ensures Inv(k, t)
  {
    assert t.wire + t.queue == (s.wire + s.queue) + [f];
    ServeSnoc(k.codec, FRESH_SERVER, s.wire + s.queue, f);
    WrittenIsEarlier(k, t);
  }

  lemma WriterSendKeeps(k: Config, s: Session)
    requires ValidConfig(k) && s.open && Inv(k, s) && s.queue != []
    ensures Inv(k, Apply(k, s, WriterSend))
  {
    var t := Apply(k, s, WriterSend);
    if t.open {
      assert t.wire + t.queue == s.wire + s.queue;
      WrittenIsEarlier(k, t);
    }
  }

  lemma PongIsInvisible(s: Session, t: Session, v: Server, n: nat)
    requires Mirrors(s, v) && t.uploads == s.uploads && t.closing == s.closing
    ensures Mirrors(t, v.(pongs := n))
  {
  }

  lemma WriterPingKeeps(k: Config, s: Session)
    requires ValidConfig(k) && s.open && Inv(k, s)
    ensures Inv(k, Apply(k, s, WriterPing))
  {
    hide Mirrors, AcksAreTrue, IdsIssued, NothingSentYet, Serve;
    IdsKept(k, s, WriterPing);
    var t := Apply(k, s, WriterPing);
    if t.open {
      var c := k.codec;
      var w := Serve(c, FRESH_SERVER, s.wire);
      var ping := Frame(Ping, []);
      ServeAppend(c, FRESH_SERVER, s.wire, s.queue);
      ServeSnoc(c, FRESH_SERVER, s.wire, ping);
      ServeAppend(c, FRESH_SERVER, t.wire, t.queue);
      PongCommutes(c, w, s.queue, ServerStep(c, w, ping).pongs);
      var v := Serve(c, FRESH_SERVER, s.wire + s.queue);
      var v' := Serve(c, FRESH_SERVER, t.wire + t.queue);
      assert v' == v.(pongs := v'.pongs);
      PongIsInvisible(s, t, v, v'.pongs);
      WrittenIsEarlier(k, t);
    }
  }

  lemma PlainSendKeeps(k: Config, s: Session, step: Step)
    requires ValidConfig(k) && Inv(k, s) && Enabled(k, s, step)
    requires step.SendOther? || step.SendBye?
    ensures Inv(k, Apply(k, s, step))
  {
    var f := if step.SendOther? then step.frame else Frame(Bye, []);
    var t := Apply(k, s, step);
    var v := Serve(k.codec, FRESH_SERVER, s.wire + s.queue);
    var v' := ServerStep(k.codec, v, f);
    assert v'.uploads == v.uploads && v'.acks == v.acks;
    Enqueued(k, s, t, f);
  }

  lemma StepKeepsInv(k: Config, s: Session, step: Step)
    requires ValidConfig(k) && Inv(k, s) && Enabled(k, s, step)
    requires Apply(k, s, step).begun <= TWO32
    ensures Inv(k, Apply(k, s, step))
  {
    hide Mirrors, Serve, ServerStep, AcksAreTrue, IdsIssued, NothingSentYet;
    var t := Apply(k, s, step);
    var v := Serve(k.codec, FRESH_SERVER, s.wire + s.queue);
    if !step.DrawId? { IdsKept(k, s, step); }
    match step {
      case DrawId(path, size) =>
        DrawKeeps(k, s, path, size, v);
        DrawKeeps(k, s, path, size, Serve(k.codec, FRESH_SERVER, s.wire));
      case SendBegin(id) =>
        BeginMirrors(k, s, id, v);
        Enqueued(k, s, t, BeginFrame(k.codec, id, s.uploads[id].path, s.uploads[id].declared));
      case SendChunk(id, body) =>
        ChunkMirrors(k, s, id, body, v);
        Enqueued(k, s, t, ChunkFrame(id, body));
      case FinishUpload(id) =>
        FinishMirrors(k, s, id, v);
        Enqueued(k, s, t, EndFrame(k.codec, id, s.uploads[id].sent));
      case AbandonUpload(id) =>
        AbandonKeeps(k, s, id, v);
        AbandonKeeps(k, s, id, Serve(k.codec, FRESH_SERVER, s.wire));
      case SendOther(_) =>
        PlainSendKeeps(k, s, step);
      case SendBye =>
        PlainSendKeeps(k, s, step);
      case WriterSend =>
        WriterSendKeeps(k, s);
      case WriterPing =>
        WriterPingKeeps(k, s);
      case Disconnect =>
    }
  }

  lemma {:induction false} RunKeepsInv(k: Config, trace: seq<Session>, steps: seq<Step>, n: nat)
    requires ValidConfig(k) && IsRun(k, trace, steps) && n <= |steps|
    requires trace[n].begun <= TWO32
    ensures Inv(k, trace[n])
  {
    if n == 0 {
      assert trace[0].wire + trace[0].queue == [];
    } else {
      assert trace[n] == Apply(k, trace[n - 1], steps[n - 1]);
      assert trace[n - 1].begun <= trace[n].begun;
      RunKeepsInv(k, trace, steps, n - 1);
      StepKeepsInv(k, trace[n - 1], steps[n - 1]);
    }
  }
}
