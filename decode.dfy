// The frame-accumulation loop that SoundFromFile and SoundFromFileResample
// share: a buffer allocated from the stream's estimated byte count, grown to
// exactly `offset + frameSize` whenever the next frame would not fit, and
// returned untrimmed.
module Decode {
  import opened Base

  /** What an opened (and, when resampling, converted) audio stream delivers:
      the container's estimate of the decoded byte count (`audioBytesTotal`)
      and the frames ReadFrame yields, in order. The estimate may be wrong in
      either direction. */
  datatype FrameSource = FrameSource(bytesTotal: nat, frames: seq<seq<byte>>)

  /** The decoded bytes of all frames, one after the other. */
  function Concat(frames: seq<seq<byte>>): seq<byte>
  {
    if frames == [] then [] else Concat(frames[..|frames| - 1]) + frames[|frames| - 1]
  }

  /** The sum of the frames' sizes (GetFrameBufferSize). */
  function TotalSize(frames: seq<seq<byte>>): nat
  {
    if frames == [] then 0 else TotalSize(frames[..|frames| - 1]) + |frames[|frames| - 1]|
  }

  /** The sum of the frame sizes is the number of bytes decoded. */
  lemma {:induction false} ConcatLength(frames: seq<seq<byte>>)
    ensures |Concat(frames)| == TotalSize(frames)
  {
    if frames != [] {
      ConcatLength(frames[..|frames| - 1]);
    }
  }

  /** A prefix of the frames holds no more bytes than all of them. */
  lemma {:induction false} TotalSizePrefix(frames: seq<seq<byte>>, k: nat)
    requires k <= |frames|
    ensures TotalSize(frames[..k]) <= TotalSize(frames)
  {
    if k < |frames| {
      var init := frames[..|frames| - 1];
      assert init[..k] == frames[..k];
      TotalSizePrefix(init, k);
    } else {
      assert frames[..k] == frames;
    }
  }

  /** One more frame adds its size to the total and its bytes to the end of
      the concatenation. */
  lemma PrefixStep(frames: seq<seq<byte>>, k: nat)
    requires k < |frames|
    ensures TotalSize(frames[..k + 1]) == TotalSize(frames[..k]) + |frames[k]|
    ensures Concat(frames[..k + 1]) == Concat(frames[..k]) + frames[k]
  {
    assert frames[..k + 1][..k] == frames[..k];
  }

  /** Byte `b` of frame `j` sits in the concatenation right after the bytes of
      the frames before it. */
  lemma {:induction false} ConcatAt(frames: seq<seq<byte>>, j: nat, b: nat)
    requires j < |frames| && b < |frames[j]|
    ensures TotalSize(frames[..j]) + b < |Concat(frames)|
    ensures Concat(frames)[TotalSize(frames[..j]) + b] == frames[j][b]
  {
    var n := |frames|;
    var init := frames[..n - 1];
    ConcatLength(init);
    ConcatLength(frames);
    if j == n - 1 {
      assert frames[..j] == init;
    } else {
      assert init[..j] == frames[..j];
      ConcatAt(init, j, b);
    }
  }

  /** The buffer the loop returns: as long as the larger of the estimate and
      the decoded byte count, the decoded bytes first, zero bytes after them. */
  ghost predicate IsDecodedBuffer(buf: seq<byte>, source: FrameSource)
  {
    var total := TotalSize(source.frames);
    && |buf| == Max(source.bytesTotal, total)
    && buf[..total] == Concat(source.frames)
    && forall i :: total <= i < |buf| ==> buf[i] == 0
  }

  /** No decoded byte is lost or moved, however wrong the estimate was. */
  lemma NoDecodedByteLost(buf: seq<byte>, source: FrameSource, j: nat, b: nat)
    requires IsDecodedBuffer(buf, source)
    requires j < |source.frames| && b < |source.frames[j]|
    ensures TotalSize(source.frames[..j]) + b < |buf|
    ensures buf[TotalSize(source.frames[..j]) + b] == source.frames[j][b]
  {
    ConcatAt(source.frames, j, b);
    var k := TotalSize(source.frames[..j]) + b;
    assert buf[..TotalSize(source.frames)][k] == buf[k];
  }

  /** The buffer is never trimmed below the estimate, and it holds every
      decoded byte. */
  lemma BufferNeverTrimmed(buf: seq<byte>, source: FrameSource)
    requires IsDecodedBuffer(buf, source)
    ensures |buf| >= source.bytesTotal
    ensures |buf| >= |Concat(source.frames)|
  {
  }

  /** The estimate and the frames determine the returned buffer completely. */
  lemma DecodedBufferUnique(a: seq<byte>, b: seq<byte>, source: FrameSource)
    requires IsDecodedBuffer(a, source) && IsDecodedBuffer(b, source)
    ensures a == b
  {
  }

  /** Array.Resize when growing: a new array of `newSize` bytes holding the old
      contents followed by zero bytes. */
  method Resize(a: array<byte>, newSize: nat) returns (b: array<byte>)
    requires a.Length <= newSize
    ensures fresh(b) && b.Length == newSize
    ensures b[..a.Length] == a[..]
    ensures forall i :: a.Length <= i < newSize ==> b[i] == 0
  {
    b := new byte[newSize](_ => 0);
    var i := 0;
    while i < a.Length
      invariant 0 <= i <= a.Length
      invariant b[..i] == a[..i]
      invariant forall m :: a.Length <= m < newSize ==> b[m] == 0
    {
      b[i] := a[i];
      i := i + 1;
    }
    assert a[..i] == a[..];
  }

  /** GetFrameData: copies the current frame into `bytes` at `offset` and
      returns the number of bytes copied; nothing else in `bytes` changes. */
  method GetFrameData(bytes: array<byte>, offset: nat, frame: seq<byte>) returns (written: nat)
    requires offset + |frame| <= bytes.Length
    modifies bytes
    ensures written == |frame|
    ensures bytes[..offset] == old(bytes[..offset])
    ensures bytes[offset..offset + |frame|] == frame
    ensures bytes[offset + |frame|..] == old(bytes[offset + |frame|..])
  {
    var i := 0;
    while i < |frame|
      invariant 0 <= i <= |frame|
      invariant bytes[..offset] == old(bytes[..offset])
      invariant bytes[offset..offset + i] == frame[..i]
      invariant bytes[offset + |frame|..] == old(bytes[offset + |frame|..])
    {
      bytes[offset + i] := frame[i];
      i := i + 1;
    }
    written := i;
  }

  /** The loop of SoundFromFile and SoundFromFileResample: allocate
      `bytesTotal` zero bytes, then for every frame grow the array to exactly
      `offset + frameSize` if the frame does not fit, copy the frame at
      `offset` and advance `offset` by the count copied. The C# casts of the
      offset to `int` need the decoded total to fit in an `int`. */
  method ReadAllFrames(source: FrameSource) returns (bytes: array<byte>)
    requires TotalSize(source.frames) <= INT32_MAX
    ensures IsDecodedBuffer(bytes[..], source)
  {
    var frames := source.frames;
    bytes := new byte[source.bytesTotal](_ => 0);
    var offset: nat := 0;
    var k := 0;
    while k < |frames|
      invariant 0 <= k <= |frames|
      invariant fresh(bytes)
      invariant offset == TotalSize(frames[..k])
      invariant bytes.Length == Max(source.bytesTotal, offset)
      invariant bytes[..offset] == Concat(frames[..k])
      invariant forall i :: offset <= i < bytes.Length ==> bytes[i] == 0
    {
      // ReadFrame
      var frame := frames[k];
      PrefixStep(frames, k);
      TotalSizePrefix(frames, k + 1);
      k := k + 1;
      // GetFrameBufferSize
      var frameSize := |frame|;
      if offset + frameSize > bytes.Length {
        bytes := Resize(bytes, offset + frameSize);
      }
      ghost var before := bytes[..];
      var written := GetFrameData(bytes, offset, frame);
      assert bytes[..offset + written] == before[..offset] + frame;
      assert forall i :: offset + written <= i < bytes.Length ==> bytes[i] == before[i];
      offset := offset + written;
    }
    assert frames[..k] == frames;
  }
}
