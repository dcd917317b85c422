/**
 The FIFO that re-chunks decoded audio into encoder frames (`AudioFifo::push`
 and `encode_available` in src/core/media/ffi.rs, called after every block and
 once more to flush).  The FIFO is a sequence of samples; every library call
 may fail, which ends the transcode.
 */
module AudioFifo {
  import opened Common

  type Sample = int

  datatype EncodedFrame = EncodedFrame(samples: seq<Sample>, pts: int)

  datatype Format = Format(frameSize: nat, padFinalFrame: bool, silence: Sample)

  /** A FIFO is only made for encoders with a positive frame size. */
  predicate ValidFormat(f: Format) { f.frameSize > 0 }

  function SamplesOf(frames: seq<EncodedFrame>): seq<Sample> {
    if frames == [] then [] else SamplesOf(frames[..|frames| - 1]) + frames[|frames| - 1].samples
  }

  lemma SamplesSnoc(frames: seq<EncodedFrame>, e: EncodedFrame)
    ensures SamplesOf(frames + [e]) == SamplesOf(frames) + e.samples
  {
    assert (frames + [e])[..|frames|] == frames;
  }

  predicate AllFull(f: Format, frames: seq<EncodedFrame>) {
    forall k :: 0 <= k < |frames| ==> |frames[k].samples| == f.frameSize
  }

  /** Every frame's time stamp is the number of samples emitted before it. */
  ghost predicate StampsOk(frames: seq<EncodedFrame>) {
    forall k :: 0 <= k < |frames| ==> frames[k].pts == |SamplesOf(frames[..k])|
  }

  lemma StampsSnoc(frames: seq<EncodedFrame>, e: EncodedFrame)
    requires StampsOk(frames) && e.pts == |SamplesOf(frames)|
    ensures StampsOk(frames + [e])
  {
    var more := frames + [e];
    forall k | 0 <= k < |more| ensures more[k].pts == |SamplesOf(more[..k])| {
      if k < |frames| {
        assert more[..k] == frames[..k] && more[k] == frames[k];
      } else {
        assert more[..k] == frames;
      }
    }
  }

  function Silence(f: Format, n: nat): (s: seq<Sample>)
    ensures |s| == n
  {
    seq(n, _ => f.silence)
  }

  /** What is left of `n` samples after taking full frames. */
  function Leftover(f: Format, n: nat): nat
    requires ValidFormat(f)
  {
    if n < f.frameSize then n else Leftover(f, n - f.frameSize)
  }

  function PadLength(f: Format, n: nat): nat
    requires ValidFormat(f)
  {
    if f.padFinalFrame && 0 < Leftover(f, n) < f.frameSize then f.frameSize - Leftover(f, n) else 0
  }

  /** Full frames, then one of at most frame size that is not empty. */
  predicate Chunked(f: Format, frames: seq<EncodedFrame>) {
    frames == [] || (AllFull(f, frames[..|frames| - 1]) && 0 < |frames[|frames| - 1].samples| <= f.frameSize)
  }

  lemma {:induction false} LeftoverAfterFull(f: Format, frames: seq<EncodedFrame>, n: nat)
    requires ValidFormat(f) && AllFull(f, frames)
    ensures Leftover(f, |SamplesOf(frames)| + n) == Leftover(f, n)
  {
    if frames != [] { LeftoverAfterFull(f, frames[..|frames| - 1], n); }
  }

  class Transcoder {
    const f: Format
    var fifo: seq<Sample>
    var frames: seq<EncodedFrame>
    var frameIndex: int

    ghost predicate Valid()
      reads this
    {
      ValidFormat(f) && StampsOk(frames) && frameIndex == |SamplesOf(frames)|
    }

    constructor (f: Format)
      requires ValidFormat(f)
      ensures Valid() && this.f == f && fifo == [] && frames == []
    {
      this.f, fifo, frames, frameIndex := f, [], [], 0;
    }

    /** A short write is an error and leaves what it wrote in the FIFO. */
    method Push(block: seq<Sample>) returns (ok: bool, written: nat)
      modifies `fifo
      ensures written <= |block| && fifo == old(fifo) + block[..written]
      ensures ok ==> written == |block|
    {
      var code: int := *;
      written := if code < 0 then 0 else Min(code, |block|);
      fifo := fifo + block[..written];
      ok := code == |block|;
    }

    /** Build one frame, stamp it and hand it to the encoder. */
    method Emit(samples: nat) returns (ok: bool)
      requires Valid() && 0 < |fifo|
      modifies `fifo, `frames, `frameIndex
      ensures var read := Min(|old(fifo)|, samples);
              var frame := EncodedFrame(old(fifo)[..read] + Silence(f, samples - read), |old(SamplesOf(frames))|);
              && (ok ==> Valid() && fifo == old(fifo)[read..] && frames == old(frames) + [frame])
              && (!ok ==> frames == old(frames) || frames == old(frames) + [frame])
    {
      var prepared: bool := *;
      if !prepared { return false; }
      var read := Min(|fifo|, samples);
      var content := fifo[..read] + Silence(f, samples - read);
      fifo := fifo[read..];
      var e := EncodedFrame(content, frameIndex);
      frameIndex := frameIndex + samples;
      var sent: bool := *;
      if !sent { return false; }
      StampsSnoc(frames, e);
      SamplesSnoc(frames, e);
      frames := frames + [e];
      ok := *;
    }

    /** Full frames while there are any; a flush also sends the rest as one shorter or padded frame. */
    method EncodeAvailable(flush: bool) returns (ok: bool)
      requires Valid() && AllFull(f, frames)
      modifies `fifo, `frames, `frameIndex
      ensures ok ==> Valid() && Chunked(f, frames)
      ensures var all := old(SamplesOf(frames) + fifo);
              var padded := all + Silence(f, PadLength(f, |all|));
              && (ok && !flush ==> AllFull(f, frames) && |fifo| < f.frameSize && SamplesOf(frames) + fifo == all)
              && (ok && flush ==> fifo == [] && SamplesOf(frames) == padded)
              && SamplesOf(frames) <= padded
    {
      hide SamplesOf, StampsOk, Leftover, Silence, AllFull, Chunked;
      ghost var all := SamplesOf(frames) + fifo;
      FullIsChunked(f, frames);
      while !(|fifo| <= 0 || (!flush && |fifo| < f.frameSize))
        invariant Valid() && Chunked(f, frames)
        invariant !flush || fifo != [] ==> AllFull(f, frames) && SamplesOf(frames) + fifo == all
        invariant flush && fifo == [] ==> SamplesOf(frames) == all + Silence(f, PadLength(f, |all|))
        decreases |fifo|
      {
        var samples := if flush && f.padFinalFrame && |fifo| < f.frameSize then f.frameSize
                       else if flush then Min(|fifo|, f.frameSize)
                       else f.frameSize;
        LeftoverAfterFull(f, frames, |fifo|);
        FrameFits(f, frames, fifo, samples, all, frameIndex);
        ok := Emit(samples);
        if !ok { return; }
      }
      ok := true;
    }

    /** Block after block, then the flush. */
    method Transcode(blocks: seq<seq<Sample>>) returns (ok: bool)
      requires Valid() && fifo == [] && frames == []
      modifies `fifo, `frames, `frameIndex
      ensures var all := Flatten(blocks);
              && (ok ==> SamplesOf(frames) == all + Silence(f, PadLength(f, |all|)))
              && (ok ==> Chunked(f, frames) && StampsOk(frames))
    {
      hide Chunked, StampsOk, Leftover, Silence, PadLength;
      for k := 0 to |blocks|
        invariant Valid() && AllFull(f, frames)
        invariant SamplesOf(frames) + fifo == Flatten(blocks[..k])
      {
        assert blocks[..k + 1] == blocks[..k] + [blocks[k]];
        FlattenSnoc(blocks[..k], blocks[k]);
        var written;
        ok, written := Push(blocks[k]);
        if !ok { return; }
        assert blocks[k][..written] == blocks[k];
        ok := EncodeAvailable(false);
        if !ok { return; }
      }
      assert blocks[..|blocks|] == blocks;
      ok := EncodeAvailable(true);
    }
  }

  /** Before the first frame of a call: nothing shorter than a frame has gone out. */
  lemma FullIsChunked(f: Format, frames: seq<EncodedFrame>)
    requires ValidFormat(f) && AllFull(f, frames)
    ensures Chunked(f, frames)
    ensures SamplesOf(frames) + [] == SamplesOf(frames) == SamplesOf(frames) + Silence(f, PadLength(f, |SamplesOf(frames)|))
  {
    LeftoverAfterFull(f, frames, 0);
  }

  /** The frame a flush emits next: a full one, or the last with its padding. */
  lemma FrameFits(f: Format, frames: seq<EncodedFrame>, fifo: seq<Sample>, samples: nat, all: seq<Sample>, pts: int)
    requires ValidFormat(f) && AllFull(f, frames) && fifo != [] && SamplesOf(frames) + fifo == all
    requires samples == if f.padFinalFrame && |fifo| < f.frameSize then f.frameSize else Min(|fifo|, f.frameSize)
    requires Leftover(f, |all|) == Leftover(f, |fifo|)
    ensures var read := Min(|fifo|, samples);
            var e := EncodedFrame(fifo[..read] + Silence(f, samples - read), pts);
            var more := frames + [e];
            && Chunked(f, more)
            && (|fifo| >= f.frameSize ==> AllFull(f, more) && SamplesOf(more) + fifo[read..] == all)
            && (|fifo| < f.frameSize ==> fifo[read..] == [])
            && SamplesOf(more) <= all + Silence(f, PadLength(f, |all|))
            && (fifo[read..] == [] ==> SamplesOf(more) == all + Silence(f, PadLength(f, |all|)))
  {
    hide SamplesOf, AllFull, Chunked, Leftover, PadLength, Silence;
    if |fifo| >= f.frameSize {
      FullFrameFits(f, frames, fifo, all, pts);
    } else {
      LastFrameFits(f, frames, fifo, samples, all, pts);
    }
  }

  lemma FullFrameFits(f: Format, frames: seq<EncodedFrame>, fifo: seq<Sample>, all: seq<Sample>, pts: int)
    requires ValidFormat(f) && AllFull(f, frames) && |fifo| >= f.frameSize && SamplesOf(frames) + fifo == all
    requires Leftover(f, |all|) == Leftover(f, |fifo|)
    ensures var n := f.frameSize;
            var more := frames + [EncodedFrame(fifo[..n] + Silence(f, 0), pts)];
            && Chunked(f, more) && AllFull(f, more) && SamplesOf(more) + fifo[n..] == all
            && SamplesOf(more) <= all + Silence(f, PadLength(f, |all|))
            && (fifo[n..] == [] ==> SamplesOf(more) == all + Silence(f, PadLength(f, |all|)))
  {
    hide SamplesOf, Leftover, Silence;
    var n := f.frameSize;
    var e := EncodedFrame(fifo[..n] + Silence(f, 0), pts);
    SamplesSnoc(frames, e);
    assert (frames + [e])[..|frames|] == frames;
    assert e.samples == fifo[..n];
    Regroup(SamplesOf(frames), fifo, n, Silence(f, PadLength(f, |all|)));
    if fifo[n..] == [] {
      OneFrameLeavesNothing(f);
      assert all + [] == all;
    }
  }

  lemma Regroup(done: seq<Sample>, fifo: seq<Sample>, n: nat, tail: seq<Sample>)
    requires n <= |fifo|
    ensures done + fifo[..n] + fifo[n..] == done + fifo
    ensures done + fifo[..n] <= done + fifo + tail
  {
    assert fifo == fifo[..n] + fifo[n..];
  }

  lemma OneFrameLeavesNothing(f: Format)
    requires ValidFormat(f)
    ensures Leftover(f, f.frameSize) == 0
  {
    assert Leftover(f, 0) == 0;
  }

  lemma LastFrameFits(f: Format, frames: seq<EncodedFrame>, fifo: seq<Sample>, samples: nat, all: seq<Sample>, pts: int)
    requires ValidFormat(f) && AllFull(f, frames) && 0 < |fifo| < f.frameSize && SamplesOf(frames) + fifo == all
    requires samples == if f.padFinalFrame then f.frameSize else |fifo|
    requires Leftover(f, |all|) == Leftover(f, |fifo|)
    ensures var more := frames + [EncodedFrame(fifo[..|fifo|] + Silence(f, samples - |fifo|), pts)];
            && Chunked(f, more) && SamplesOf(more) == all + Silence(f, PadLength(f, |all|))
  {
    var e := EncodedFrame(fifo[..|fifo|] + Silence(f, samples - |fifo|), pts);
    SamplesSnoc(frames, e);
    hide SamplesOf;
    assert (frames + [e])[..|frames|] == frames;
    assert fifo[..|fifo|] == fifo;
    assert SamplesOf(frames) + e.samples == all + Silence(f, samples - |fifo|);
  }

  /** Without padding, or when the samples fill whole frames, no silence is added; otherwise the last frame is filled up. */
  lemma {:induction false} PaddingFillsUp(f: Format, n: nat)
    requires ValidFormat(f)
    ensures PadLength(f, n) < f.frameSize
    ensures !f.padFinalFrame ==> PadLength(f, n) == 0
    ensures f.padFinalFrame ==> Leftover(f, n + PadLength(f, n)) == 0
    decreases n
  {
    if n >= f.frameSize {
      PaddingFillsUp(f, n - f.frameSize);
    } else if 0 < n {
      assert Leftover(f, f.frameSize) == Leftover(f, 0);
    }
  }
}
