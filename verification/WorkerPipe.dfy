/**
 The pipe protocol between a pooled FFI worker and its parent
 (crates/assetstudio-ffi/src/worker_pool.rs, src/frame.rs and
 src/bin/assetstudio_ffi_worker.rs of that crate): one request frame, one
 response frame, then a payload frame if the payload is not empty and was not
 spilled to a file.  The two ends enforce different frame limits.

 JSON is an abstract codec.  What the native library returns may be any
 function of the request, a different one at each call.  A byte sequence is
 shorter than 2^64.
 */
module WorkerPipe {
  import opened Common
  import opened Bytes
  import opened HipFrame

  const CLIENT_MAX: nat := 512 * 1024 * 1024
  const SERVER_MAX: nat := 256 * 1024 * 1024
  const PAYLOAD_FILE_THRESHOLD: nat := 128 * 1024 * 1024

  type Request = string
  type Reply = string

  datatype Response = Response(id: nat, status: Option<int>, response: Option<Reply>,
                               payloadLen: nat, payloadFile: Option<string>, error: Option<string>)

  datatype Codec = Codec(encodeRequest: (nat, Request) -> seq<byte>, decodeRequest: seq<byte> -> Option<(nat, Request)>,
                         encodeResponse: Response -> seq<byte>, decodeResponse: seq<byte> -> Option<Response>)

  ghost predicate Faithful(c: Codec) {
    && (forall id: nat, r :: c.decodeRequest(c.encodeRequest(id, r)) == Some((id, r)) && |c.encodeRequest(id, r)| < TWO64)
    && (forall r :: c.decodeResponse(c.encodeResponse(r)) == Some(r) && |c.encodeResponse(r)| < TWO64)
  }

  // ---------------------------------------------------------------- frames

  function Framed(payload: seq<byte>): seq<byte> { LittleEndian(|payload| % TWO64, 8) + payload }

  datatype ReadResult =
    | Got(payload: seq<byte>, rest: seq<byte>)
    | NoHeader
    | TooLarge(rest: seq<byte>)
    | Truncated

  function ReadOne(bytes: seq<byte>, limit: nat): ReadResult {
    if |bytes| < 8 then NoHeader else
    var len := FromLittleEndian(bytes[..8]);
    if len > limit then TooLarge(bytes[8..]) else
    if |bytes| < 8 + len then Truncated else Got(bytes[8..8 + len], bytes[8 + len..])
  }

  /** A frame reads back with what follows it untouched exactly when it is within the reader's limit. */
  lemma FrameReadsBackIff(payload: seq<byte>, rest: seq<byte>, limit: nat)
    requires |payload| < TWO64
    ensures ReadOne(Framed(payload) + rest, limit) == if |payload| <= limit then Got(payload, rest) else TooLarge(payload + rest)
  {
    WidthLimits();
    hide Pow256, LittleEndian, FromLittleEndian;
    LittleEndianRoundTrip(|payload|, 8);
    var header := LittleEndian(|payload|, 8);
    var bytes := Framed(payload) + rest;
    assert bytes == header + (payload + rest);
    assert bytes[..8] == header && bytes[8..] == payload + rest;
    if |payload| <= limit {
      assert bytes[8..8 + |payload|] == payload && bytes[8 + |payload|..] == rest;
    }
  }

  /** Byte by byte: eight bytes of length, least significant first, then the payload. */
  lemma FrameLayout(payload: seq<byte>, i: nat)
    requires |payload| < TWO64 && i < 8
    ensures Framed(payload)[i] == |payload| / Pow256(i) % 256
    ensures |Framed(payload)| == 8 + |payload| && Framed(payload)[8..] == payload
  {
    hide LittleEndian, Pow256;
    LittleEndianDigit(|payload|, 8, i);
    assert Framed(payload)[i] == LittleEndian(|payload|, 8)[i];
  }

  /** Whatever is read as a frame is the encoding of that frame; its length is the positional sum of the first eight bytes. */
  lemma ReadIsFramed(bytes: seq<byte>, limit: nat)
    ensures var r := ReadOne(bytes, limit);
            && (r.Got? ==> bytes == Framed(r.payload) + r.rest && |r.payload| <= limit)
            && (r.Got? <==> |bytes| >= 8 && var len := Sum(LittleTerms(bytes[..8])); len <= limit && 8 + len <= |bytes|)
            && (r.TooLarge? <==> |bytes| >= 8 && Sum(LittleTerms(bytes[..8])) > limit)
  {
    WidthLimits();
    hide LittleEndian, FromLittleEndian, LittleTerms, Sum, Pow256;
    if |bytes| >= 8 {
      LittleEndianReadsBack(bytes[..8]);
      LittleEndianSum(bytes[..8]);
      var r := ReadOne(bytes, limit);
      if r.Got? {
        assert |r.payload| == FromLittleEndian(bytes[..8]) < TWO64;
        assert bytes == bytes[..8] + r.payload + r.rest;
      }
    }
  }

  method WriteWorkerFrame(pipe: ByteStream, payload: seq<byte>)
    modifies pipe
    ensures pipe.unread == old(pipe.unread) + Framed(payload)
  {
    pipe.WriteAll(LittleEndian(|payload| % TWO64, 8));
    pipe.WriteAll(payload);
  }

  method ReadWorkerFrame(pipe: ByteStream, limit: nat) returns (r: ReadResult)
    modifies pipe
    ensures r == ReadOne(old(pipe.unread), limit)
    ensures pipe.unread == if r.Got? || r.TooLarge? then r.rest else []
  {
    ghost var before := pipe.unread;
    var header := pipe.ReadExact(8);
    if header.Err? { return NoHeader; }
    var len := FromLittleEndian(header.value);
    if len > limit { return TooLarge(pipe.unread); }
    var body := pipe.ReadExact(len);
    if body.Err? { return Truncated; }
    assert before[8..][..len] == before[8..8 + len] && before[8..][len..] == before[8 + len..];
    return Got(body.value, pipe.unread);
  }

  // ---------------------------------------------------------------- the worker process

  datatype Native = NativeOk(status: int, reply: Reply, payload: seq<byte>) | NativeErr(message: string)

  const SPILL_ERROR := "payload spill failed"

  function ErrorResponse(id: nat, message: string): Response { Response(id, None, None, 0, None, Some(message)) }

  /** The response and the payload to send inline; `spill` names the temporary file, if one can be made. */
  function Answer(id: nat, o: Native, spill: Option<string>): (Response, seq<byte>) {
    match o
    case NativeErr(message) => (ErrorResponse(id, message), [])
    case NativeOk(status, reply, payload) =>
      if |payload| > PAYLOAD_FILE_THRESHOLD then
        if spill.None? then (ErrorResponse(id, SPILL_ERROR), [])
        else (Response(id, Some(status), Some(reply), |payload|, spill, None), [])
      else (Response(id, Some(status), Some(reply), |payload|, None, None), payload)
  }

  predicate Spills(o: Native, spill: Option<string>) {
    o.NativeOk? && |o.payload| > PAYLOAD_FILE_THRESHOLD && spill.Some?
  }

  function FilesAfter(files: map<string, seq<byte>>, o: Native, spill: Option<string>): map<string, seq<byte>> {
    if Spills(o, spill) then files[spill.value := o.payload] else files
  }

  /** Which way a payload travels: over 128 MiB through a file, otherwise inline; with the limits of 256 and 512 MiB an inline payload always fits. */
  lemma AnswerSays(id: nat, o: Native, spill: Option<string>)
    ensures var (r, inline) := Answer(id, o, spill);
            && r.id == id
            && (r.error.None? <==> o.NativeOk? && (|o.payload| <= 134217728 || spill.Some?))
            && (r.error.None? ==> r.status == Some(o.status) && r.response == Some(o.reply) && r.payloadLen == |o.payload|)
            && (r.payloadFile.Some? <==> o.NativeOk? && |o.payload| > 134217728 && spill.Some?)
            && (r.payloadFile.Some? ==> r.payloadFile == spill)
            && inline == (if r.error.None? && r.payloadFile.None? then o.payload else [])
            && |inline| <= 134217728 < SERVER_MAX == 268435456 < CLIENT_MAX == 536870912
  {
  }

  function Inline(payload: seq<byte>): seq<byte> { if payload == [] then [] else Framed(payload) }

  /** Everything the worker writes for one response. */
  function Written(c: Codec, response: Response, payload: seq<byte>): seq<byte> {
    Framed(c.encodeResponse(response)) + Inline(payload)
  }

  class WorkerProcess {
    const codec: Codec
    const stdin: ByteStream
    const stdout: ByteStream
    var exitCode: Option<int>
    var files: map<string, seq<byte>>

    ghost predicate Valid() { stdin != stdout }

    constructor (codec: Codec, files: map<string, seq<byte>>)
      ensures Valid() && fresh(stdin) && fresh(stdout) && this.codec == codec && this.files == files
      ensures exitCode == None && stdin.unread == [] && stdout.unread == []
    {
      this.codec, this.files, exitCode := codec, files, None;
      stdin := new ByteStream([]);
      stdout := new ByteStream([]);
    }

    /** `server_response_with_payload`, with the error response for a failed spill. */
    method Respond(id: nat, o: Native, spill: Option<string>) returns (response: Response, payload: seq<byte>)
      modifies `files
      ensures (response, payload) == Answer(id, o, spill)
      ensures files == FilesAfter(old(files), o, spill)
    {
      match o {
        case NativeErr(message) => return ErrorResponse(id, message), [];
        case NativeOk(status, reply, bytes) =>
          if |bytes| > PAYLOAD_FILE_THRESHOLD {
            if spill.None? {
              return ErrorResponse(id, SPILL_ERROR), [];
            }
            files := files[spill.value := bytes];
            return Response(id, Some(status), Some(reply), |bytes|, spill, None), [];
          }
          return Response(id, Some(status), Some(reply), |bytes|, None, None), bytes;
      }
    }

    /** One round of the server loop. */
    method ServeOne(native: Request -> Native, spill: Option<string>)
      requires Valid() && exitCode.None?
      modifies this, stdin, stdout
      ensures match ReadOne(old(stdin.unread), SERVER_MAX)
              case Got(frame, rest) =>
                (match codec.decodeRequest(frame)
                 case None => exitCode == Some(2) && stdout.unread == old(stdout.unread) && files == old(files)
                 case Some((id, request)) =>
                   var (response, payload) := Answer(id, native(request), spill);
                   && exitCode.None? && stdin.unread == rest
                   && stdout.unread == old(stdout.unread) + Written(codec, response, payload)
                   && files == FilesAfter(old(files), native(request), spill))
              case NoHeader => exitCode == Some(0) && stdout.unread == old(stdout.unread) && files == old(files)
              case _ => exitCode == Some(2) && stdout.unread == old(stdout.unread) && files == old(files)
    {
      var frame := ReadWorkerFrame(stdin, SERVER_MAX);
      if frame.NoHeader? { exitCode := Some(0); return; }
      if !frame.Got? { exitCode := Some(2); return; }
      match codec.decodeRequest(frame.payload) {
        case None => exitCode := Some(2);
        case Some((id, request)) =>
          var response, payload := Respond(id, native(request), spill);
          WriteWorkerFrame(stdout, codec.encodeResponse(response));
          if payload != [] {
            WriteWorkerFrame(stdout, payload);
          }
      }
    }

    /** The process is killed when only so many bytes of its output have gone out. */
    method Die(bytesOut: nat)
      modifies this, stdout
      ensures exitCode.Some? && files == old(files)
      ensures stdout.unread == old(stdout.unread)[..Min(bytesOut, |old(stdout.unread)|)]
    {
      stdout.unread := stdout.unread[..Min(bytesOut, |stdout.unread|)];
      exitCode := Some(137);
    }
  }

  // ---------------------------------------------------------------- the parent

  datatype Output = Output(status: int, reply: Reply, payload: seq<byte>, payloadFile: Option<string>)

  datatype CallError =
    | ProtocolError
    | Unparsable
    | IdMismatch
    | WorkerError(message: string)
    | MissingResponse
    | FileUnreadable
    | LengthMismatch

  /**
   One call's circumstances: the id drawn from the pool, the request, and how
   the worker will fare; it may die on its own with part of its output written.
   */
  datatype Circumstance = Circumstance(id: nat, request: Request, native: Request -> Native, spill: Option<string>,
                                       dies: Option<nat>)

  function AnswerTo(k: Circumstance): (Response, seq<byte>) { Answer(k.id, k.native(k.request), k.spill) }

  /** Request and response fit the frame limits of the end that reads them. */
  predicate WithinLimits(c: Codec, k: Circumstance) {
    |c.encodeRequest(k.id, k.request)| <= SERVER_MAX && |c.encodeResponse(AnswerTo(k).0)| <= CLIENT_MAX
  }

  /** The worker lives, or dies only after writing its whole answer. */
  predicate Delivers(c: Codec, k: Circumstance) {
    k.dies.None? || k.dies.value >= |Written(c, AnswerTo(k).0, AnswerTo(k).1)|
  }

  predicate Answers(c: Codec, k: Circumstance) { WithinLimits(c, k) && Delivers(c, k) }

  /** The caller's view: the payload itself, wherever it travelled. */
  function PayloadOf(o: Output, files: map<string, seq<byte>>): Option<seq<byte>> {
    match o.payloadFile
    case None => Some(o.payload)
    case Some(name) => if name in files then Some(files[name]) else None
  }

  /** Exactly what the native library made of this very request. */
  ghost predicate Truthful(r: Result<Output, CallError>, k: Circumstance, files: map<string, seq<byte>>) {
    match k.native(k.request)
    case NativeErr(message) => r == Err(WorkerError(message))
    case NativeOk(status, reply, payload) =>
      if |payload| > PAYLOAD_FILE_THRESHOLD && k.spill.None? then r == Err(WorkerError(SPILL_ERROR))
      else r.Ok? && r.value.status == status && r.value.reply == reply && PayloadOf(r.value, files) == Some(payload)
  }

  class PooledWorker {
    const worker: WorkerProcess
    var completedCalls: nat

    /** Between calls neither pipe holds a byte. */
    ghost predicate Lockstep()
      reads this, worker, worker.stdin, worker.stdout
    {
      worker.Valid() && worker.stdin.unread == [] && worker.stdout.unread == []
    }

    constructor (codec: Codec, files: map<string, seq<byte>>)
      ensures fresh(worker) && fresh(worker.stdin) && fresh(worker.stdout)
      ensures Lockstep() && worker.exitCode.None? && completedCalls == 0 && worker.codec == codec && worker.files == files
    {
      worker := new WorkerProcess(codec, files);
      completedCalls := 0;
    }

    method Call(k: Circumstance) returns (r: Result<Output, CallError>)
      requires Lockstep() && Faithful(worker.codec)
      requires k.spill.Some? ==> k.spill.value !in worker.files
      modifies this, worker, worker.stdin, worker.stdout
      ensures (r.Ok? || r.error.WorkerError?) <==> old(worker.exitCode).None? && Answers(worker.codec, k)
      ensures r.Ok? || r.error.WorkerError? ==> Lockstep() && Truthful(r, k, worker.files)
      ensures r.Ok? || r.error.WorkerError? ==> (worker.exitCode.None? <==> k.dies.None?)
      ensures r.Err? && !r.error.WorkerError? ==> r.error == ProtocolError
      ensures completedCalls == if r.Ok? then Min(old(completedCalls) + 1, TWO64 - 1) else old(completedCalls)
      ensures Grows(old(worker.files), worker.files)
      ensures forall name :: name in worker.files && name !in old(worker.files) ==> k.spill == Some(name)
    {
      hide Truthful, Delivers, Arrives, Answer;
      if worker.exitCode.Some? {
        return Err(ProtocolError);  // the pipe is broken
      }
      Exchange(k);
      r := Receive(k);
    }

    /** Write the request and let the worker answer it, or die. */
    method Exchange(k: Circumstance)
      requires Lockstep() && Faithful(worker.codec) && worker.exitCode.None?
      modifies worker, worker.stdin, worker.stdout
      ensures worker.stdout.unread == Arrives(worker.codec, k)
      ensures Accepted(worker.codec, k) ==>
                && worker.stdin.unread == [] && (worker.exitCode.None? <==> k.dies.None?)
                && worker.files == FilesAfter(old(worker.files), k.native(k.request), k.spill)
      ensures !Accepted(worker.codec, k) ==> worker.files == old(worker.files)
    {
      hide Answer;
      var request := worker.codec.encodeRequest(k.id, k.request);
      WriteWorkerFrame(worker.stdin, request);
      RequestArrives(worker.codec, k);
      worker.ServeOne(k.native, k.spill);
      if k.dies.Some? && worker.exitCode.None? {
        worker.Die(k.dies.value);
      }
    }

    /** Read the response and, where it announces one, the payload. */
    method Receive(k: Circumstance) returns (r: Result<Output, CallError>)
      requires Faithful(worker.codec) && worker.Valid() && worker.stdout.unread == Arrives(worker.codec, k)
      requires Accepted(worker.codec, k) && Spills(k.native(k.request), k.spill) ==>
                 k.spill.value in worker.files && worker.files[k.spill.value] == k.native(k.request).payload
      modifies `completedCalls, worker.stdout
      ensures (r.Ok? || r.error.WorkerError?) <==> Answers(worker.codec, k)
      ensures r.Ok? || r.error.WorkerError? ==> worker.stdout.unread == [] && Truthful(r, k, worker.files)
      ensures r.Err? && !r.error.WorkerError? ==> r.error == ProtocolError
      ensures completedCalls == if r.Ok? then Min(old(completedCalls) + 1, TWO64 - 1) else old(completedCalls)
    {
      hide ReadOne, Framed, Written;
      ghost var c := worker.codec;
      AnswerReads(c, k);
      var frame := ReadWorkerFrame(worker.stdout, CLIENT_MAX);
      if !frame.Got? { return Err(ProtocolError); }
      var parsed := worker.codec.decodeResponse(frame.payload);
      if parsed.None? { return Err(Unparsable); }
      var response := parsed.value;
      if response.id != k.id { return Err(IdMismatch); }
      if response.error.Some? { return Err(WorkerError(response.error.value)); }
      var status := if response.status.Some? then response.status.value else 100;
      if response.response.None? { return Err(MissingResponse); }
      var payload: seq<byte> := [];
      if response.payloadFile.Some? {
        if response.payloadFile.value !in worker.files { return Err(FileUnreadable); }
        if |worker.files[response.payloadFile.value]| != response.payloadLen { return Err(LengthMismatch); }
      } else if response.payloadLen > 0 {
        var second := ReadWorkerFrame(worker.stdout, CLIENT_MAX);
        if !second.Got? { return Err(ProtocolError); }
        payload := second.payload;
        if |payload| != response.payloadLen { return Err(LengthMismatch); }
      }
      completedCalls := Min(completedCalls + 1, TWO64 - 1);
      return Ok(Output(status, response.response.value, payload, response.payloadFile));
    }
  }

  /** The worker takes the request. */
  predicate Accepted(c: Codec, k: Circumstance) { |c.encodeRequest(k.id, k.request)| <= SERVER_MAX }

  /** The bytes that reach the parent. */
  function Arrives(c: Codec, k: Circumstance): seq<byte> {
    if !Accepted(c, k) then [] else
    var out := Written(c, AnswerTo(k).0, AnswerTo(k).1);
    if k.dies.None? then out else out[..Min(k.dies.value, |out|)]
  }

  /** What the parent's reads make of them. */
  lemma AnswerReads(c: Codec, k: Circumstance)
    requires Faithful(c)
    ensures var (answer, inline) := AnswerTo(k);
            var first := ReadOne(Arrives(c, k), CLIENT_MAX);
            && c.decodeResponse(c.encodeResponse(answer)) == Some(answer)
            && (first.Got? ==> WithinLimits(c, k) && first.payload == c.encodeResponse(answer))
            && (Answers(c, k) ==> first == Got(c.encodeResponse(answer), Inline(inline)))
            && (Answers(c, k) && inline != [] ==> ReadOne(Inline(inline), CLIENT_MAX) == Got(inline, []))
            && (first.Got? && !Answers(c, k) ==> inline != [] && !ReadOne(first.rest, CLIENT_MAX).Got?)
  {
    assert ReadOne([], CLIENT_MAX) == NoHeader;
    hide ReadOne, Framed, Answer, Inline;
    ResponseArrives(c, k);
    var (answer, inline) := AnswerTo(k);
    var out := Written(c, answer, inline);
    if Accepted(c, k) {
      if k.dies.Some? && k.dies.value < |out| {
        CutResponseFails(c, k, k.dies.value);
      } else {
        assert out[..|out|] == out;
      }
    }
  }

  /** The worker decodes the very request, or refuses its size. */
  lemma RequestArrives(c: Codec, k: Circumstance)
    requires Faithful(c)
    ensures var bytes := c.encodeRequest(k.id, k.request);
            && ReadOne([] + Framed(bytes), SERVER_MAX) == (if |bytes| <= SERVER_MAX then Got(bytes, []) else TooLarge(bytes))
            && c.decodeRequest(bytes) == Some((k.id, k.request))
  {
    var bytes := c.encodeRequest(k.id, k.request);
    FrameReadsBackIff(bytes, [], SERVER_MAX);
    assert [] + Framed(bytes) == Framed(bytes) + [] && bytes + [] == bytes;
  }

  /** An inline payload is always within the parent's limit. */
  lemma ResponseArrives(c: Codec, k: Circumstance)
    requires Faithful(c)
    ensures var (answer, inline) := AnswerTo(k);
            var bytes := c.encodeResponse(answer);
            && ReadOne(Written(c, answer, inline), CLIENT_MAX)
               == (if |bytes| <= CLIENT_MAX then Got(bytes, Inline(inline)) else TooLarge(bytes + Inline(inline)))
            && c.decodeResponse(bytes) == Some(answer)
            && (inline != [] ==> ReadOne(Inline(inline), CLIENT_MAX) == Got(inline, []))
  {
    var (answer, inline) := AnswerTo(k);
    var bytes := c.encodeResponse(answer);
    FrameReadsBackIff(bytes, Inline(inline), CLIENT_MAX);
    FrameReadsBackIff(inline, [], CLIENT_MAX);
    assert Framed(inline) + [] == Framed(inline);
  }

  /** A frame cut short never reads as a frame. */
  lemma CutFrameFails(payload: seq<byte>, n: nat, limit: nat)
    requires |payload| < TWO64 && n < |Framed(payload)|
    ensures !ReadOne(Framed(payload)[..n], limit).Got?
  {
    WidthLimits();
    hide Pow256, LittleEndian, FromLittleEndian;
    LittleEndianRoundTrip(|payload|, 8);
    if n >= 8 {
      assert Framed(payload)[..n][..8] == LittleEndian(|payload|, 8);
    }
  }

  /** Of a cut answer either the response or the inline payload cannot be read. */
  lemma CutResponseFails(c: Codec, k: Circumstance, n: nat)
    requires Faithful(c) && n < |Written(c, AnswerTo(k).0, AnswerTo(k).1)|
    ensures var (answer, inline) := AnswerTo(k);
            var first := ReadOne(Written(c, answer, inline)[..n], CLIENT_MAX);
            first.Got? ==> && first.payload == c.encodeResponse(answer) && |first.payload| <= CLIENT_MAX
                           && inline != [] && !ReadOne(first.rest, CLIENT_MAX).Got?
  {
    var (answer, inline) := AnswerTo(k);
    var bytes := c.encodeResponse(answer);
    var frame := Framed(bytes);
    hide Framed, ReadOne;
    if n < |frame| {
      assert Written(c, answer, inline)[..n] == frame[..n];
      CutFrameFails(bytes, n, CLIENT_MAX);
    } else {
      var left := Inline(inline)[..n - |frame|];
      assert Written(c, answer, inline)[..n] == frame + left;
      FrameReadsBackIff(bytes, left, CLIENT_MAX);
      CutFrameFails(inline, n - |frame|, CLIENT_MAX);
    }
  }

  /** The names the worker will pick are new, as temporary file names are. */
  ghost predicate FreshNames(ks: seq<Circumstance>, files: map<string, seq<byte>>) {
    && (forall i :: 0 <= i < |ks| && ks[i].spill.Some? ==> ks[i].spill.value !in files)
    && (forall i, j :: 0 <= i < j < |ks| && ks[i].spill.Some? ==> ks[i].spill != ks[j].spill)
  }

  ghost predicate Grows(before: map<string, seq<byte>>, after: map<string, seq<byte>>) {
    forall name :: name in before ==> name in after && after[name] == before[name]
  }

  /** Every result so far is the answer to its own request, and only the last worker life may have ended. */
  ghost predicate AllTruthful(c: Codec, results: seq<Result<Output, CallError>>, ks: seq<Circumstance>, files: map<string, seq<byte>>) {
    && |results| <= |ks|
    && (forall i :: 0 <= i < |results| ==> Answers(c, ks[i]) && Truthful(results[i], ks[i], files))
    && (forall i :: 0 <= i < |results| - 1 ==> ks[i].dies.None?)
  }

  lemma StillTruthful(c: Codec, results: seq<Result<Output, CallError>>, ks: seq<Circumstance>,
                      before: map<string, seq<byte>>, after: map<string, seq<byte>>)
    requires AllTruthful(c, results, ks, before) && Grows(before, after)
    ensures AllTruthful(c, results, ks, after)
  {
    hide Answers;
    forall i | 0 <= i < |results| ensures Truthful(results[i], ks[i], after) {
      assert Truthful(results[i], ks[i], before);
    }
  }

  lemma OneMoreTruthful(c: Codec, results: seq<Result<Output, CallError>>, ks: seq<Circumstance>,
                        files: map<string, seq<byte>>, r: Result<Output, CallError>)
    requires AllTruthful(c, results, ks, files) && |results| < |ks|
    requires Answers(c, ks[|results|]) && Truthful(r, ks[|results|], files)
    requires |results| > 0 ==> ks[|results| - 1].dies.None?
    ensures AllTruthful(c, results + [r], ks, files)
  {
    hide Truthful, Answers;
  }

  lemma FreshAfter(ks: seq<Circumstance>, n: nat, before: map<string, seq<byte>>, after: map<string, seq<byte>>)
    requires n < |ks| && FreshNames(ks[n..], before)
    requires forall name :: name in after && name !in before ==> ks[n].spill == Some(name)
    ensures FreshNames(ks[n + 1..], after)
  {
    assert ks[n..][0] == ks[n] && ks[n..][1..] == ks[n + 1..];
  }

  lemma FreshNow(ks: seq<Circumstance>, n: nat, files: map<string, seq<byte>>)
    requires n < |ks| && FreshNames(ks[n..], files)
    ensures ks[n].spill.Some? ==> ks[n].spill.value !in files
  {
    assert ks[n..][0] == ks[n];
  }

  /**
   Any sequence of calls on one leased worker, given up at the first call that
   fails otherwise than by a worker-reported error: that happens exactly at the
   first call that breaks a frame limit, loses its worker before the answer is
   out, or follows the death of the worker.  All earlier results are true of
   their own requests, and their payloads can still be fetched.
   */
  method CallAll(p: PooledWorker, ks: seq<Circumstance>) returns (results: seq<Result<Output, CallError>>, ok: bool)
    requires p.Lockstep() && p.worker.exitCode.None? && Faithful(p.worker.codec) && FreshNames(ks, p.worker.files)
    modifies p, p.worker, p.worker.stdin, p.worker.stdout
    ensures AllTruthful(p.worker.codec, results, ks, p.worker.files)
    ensures ok ==> |results| == |ks| && p.Lockstep()
    ensures !ok ==> |results| < |ks| && (!Answers(p.worker.codec, ks[|results|])
                                         || (|results| > 0 && ks[|results| - 1].dies.Some?))
  {
    hide AllTruthful, Truthful, Answers, FreshNames, Grows, Faithful;
    results, ok := [], true;
    NoResults(p.worker.codec, ks, p.worker.files);
    assert ks[0..] == ks;
    while |results| < |ks|
      invariant |results| <= |ks| && p.Lockstep()
      invariant p.worker.exitCode.None? <==> |results| == 0 || ks[|results| - 1].dies.None?
      invariant AllTruthful(p.worker.codec, results, ks, p.worker.files)
      invariant FreshNames(ks[|results|..], p.worker.files)
    {
      ghost var before := p.worker.files;
      FreshNow(ks, |results|, before);
      var r := p.Call(ks[|results|]);
      StillTruthful(p.worker.codec, results, ks, before, p.worker.files);
      FreshAfter(ks, |results|, before, p.worker.files);
      if r.Err? && !r.error.WorkerError? {
        return results, false;
      }
      OneMoreTruthful(p.worker.codec, results, ks, p.worker.files, r);
      results := results + [r];
    }
  }


  lemma NoResults(c: Codec, ks: seq<Circumstance>, files: map<string, seq<byte>>)
    ensures AllTruthful(c, [], ks, files)
  {
  }
}
