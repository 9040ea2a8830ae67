/**
 * The content-side capture of public/content/audioCapture.ts: the WAV
 * encoder over a byte buffer, the binary string handed to `btoa`, the flush
 * rule of the sample queue and the guard against starting twice.
 *
 * A WAV file here is the canonical 44-byte header of the RIFF/WAVE format
 * for mono 16-bit PCM followed by the samples. The browser's AudioContext,
 * the worklet and `chrome.runtime.sendMessage` are not part of this model:
 * a worklet message arrives as its PCM samples, and a flush returns the
 * message it would send.
 */
module AudioCapture {
  import opened Wrappers
  import opened Pcm
  import opened Seqs

  /** `bs` written over `base` from `offset` on. */
  function Overwrite(base: seq<byte>, offset: nat, bs: seq<byte>): (r: seq<byte>)
    requires offset + |bs| <= |base|
    ensures |r| == |base|
  {
    base[..offset] + bs + base[offset + |bs|..]
  }

  /** `writeString(view, offset, s)`: byte `offset + i` gets the code of character `i`; no other byte changes. */
  method WriteString(view: array<byte>, offset: nat, s: string)
    requires offset + |s| <= view.Length
    modifies view
    ensures view[..] == Overwrite(old(view[..]), offset, Ascii(s))
  {
    for i := 0 to |s|
      invariant forall k :: 0 <= k < view.Length ==>
        view[k] == (if offset <= k < offset + i then CharByte(s[k - offset]) else old(view[k]))
    {
      view[offset + i] := CharByte(s[i]);
    }
    assert view[..] == Overwrite(old(view[..]), offset, Ascii(s));
  }

  /** `view.setUint32(offset, v, true)`. */
  method SetUint32(view: array<byte>, offset: nat, v: int)
    requires offset + 4 <= view.Length
    modifies view
    ensures view[..] == Overwrite(old(view[..]), offset, U32Le(v))
  {
    var b := U32Le(v);
    view[offset], view[offset + 1], view[offset + 2], view[offset + 3] := b[0], b[1], b[2], b[3];
    assert view[..] == Overwrite(old(view[..]), offset, b);
  }

  /** `view.setUint16(offset, v, true)`. */
  method SetUint16(view: array<byte>, offset: nat, v: int)
    requires offset + 2 <= view.Length
    modifies view
    ensures view[..] == Overwrite(old(view[..]), offset, U16Le(v))
  {
    var b := U16Le(v);
    view[offset], view[offset + 1] := b[0], b[1];
    assert view[..] == Overwrite(old(view[..]), offset, b);
  }

  /** The RIFF chunk descriptor: the tag, the size of the rest of the file, the format. */
  function RiffPart(n: nat): seq<byte>
  {
    Ascii("RIFF") + U32Le(36 + n * 2) + Ascii("WAVE")
  }

  /** The `fmt ` sub-chunk: PCM, one channel, the rate, the byte rate, block align 2, 16 bits. */
  function FmtPart(rate: int): seq<byte>
  {
    Ascii("fmt ") + U32Le(16) + U16Le(1) + U16Le(1) + U32Le(rate) + U32Le(rate * 2) + U16Le(2) + U16Le(16)
  }

  /** The `data` sub-chunk header: the tag and the size of the samples in bytes. */
  function DataPart(n: nat): seq<byte>
  {
    Ascii("data") + U32Le(n * 2)
  }

  /** The 44-byte header for `n` mono 16-bit samples at `rate` samples a second. */
  function WavHeader(n: nat, rate: int): (h: seq<byte>)
    ensures |h| == 44
  {
    RiffPart(n) + FmtPart(rate) + DataPart(n)
  }

  function WavFile(samples: seq<int16>, rate: int): seq<byte>
  {
    WavHeader(|samples|, rate) + SamplesBytes(samples)
  }

  /** Two writes side by side are one write of both. */
  lemma OverwriteTwice(base: seq<byte>, offset: nat, a: seq<byte>, b: seq<byte>)
    requires offset + |a| + |b| <= |base|
    ensures Overwrite(Overwrite(base, offset, a), offset + |a|, b) == Overwrite(base, offset, a + b)
  {
  }

  method WriteRiff(view: array<byte>, n: nat)
    requires 12 <= view.Length
    modifies view
    ensures view[..] == Overwrite(old(view[..]), 0, RiffPart(n))
  {
    ghost var base := view[..];
    WriteString(view, 0, "RIFF");
    SetUint32(view, 4, 36 + n * 2);
    OverwriteTwice(base, 0, Ascii("RIFF"), U32Le(36 + n * 2));
    WriteString(view, 8, "WAVE");
    OverwriteTwice(base, 0, Ascii("RIFF") + U32Le(36 + n * 2), Ascii("WAVE"));
  }

  method WriteFmt(view: array<byte>, rate: int)
    requires 36 <= view.Length
    modifies view
    ensures view[..] == Overwrite(old(view[..]), 12, FmtPart(rate))
  {
    ghost var base := view[..];
    ghost var acc := Ascii("fmt ");
    WriteString(view, 12, "fmt ");
    SetUint32(view, 16, 16);
    OverwriteTwice(base, 12, acc, U32Le(16));
    acc := acc + U32Le(16);
    SetUint16(view, 20, 1);
    OverwriteTwice(base, 12, acc, U16Le(1));
    acc := acc + U16Le(1);
    SetUint16(view, 22, 1);
    OverwriteTwice(base, 12, acc, U16Le(1));
    acc := acc + U16Le(1);
    SetUint32(view, 24, rate);
    OverwriteTwice(base, 12, acc, U32Le(rate));
    acc := acc + U32Le(rate);
    SetUint32(view, 28, rate * 2);
    OverwriteTwice(base, 12, acc, U32Le(rate * 2));
    acc := acc + U32Le(rate * 2);
    SetUint16(view, 32, 2);
    OverwriteTwice(base, 12, acc, U16Le(2));
    acc := acc + U16Le(2);
    SetUint16(view, 34, 16);
    OverwriteTwice(base, 12, acc, U16Le(16));
  }

  method WriteDataHeader(view: array<byte>, n: nat)
    requires 44 <= view.Length
    modifies view
    ensures view[..] == Overwrite(old(view[..]), 36, DataPart(n))
  {
    ghost var base := view[..];
    WriteString(view, 36, "data");
    SetUint32(view, 40, n * 2);
    OverwriteTwice(base, 36, Ascii("data"), U32Le(n * 2));
  }

  /**
   * `encodeWAV(int16Data, sampleRate)`: a buffer of 44 + 2n bytes, the header
   * written field by field at its fixed offsets, then the sample bytes from
   * offset 44.
   */
  method EncodeWav(int16Data: array<int16>, sampleRate: int) returns (buffer: array<byte>)
    ensures fresh(buffer)
    ensures buffer[..] == WavFile(int16Data[..], sampleRate)
  {
    var n := int16Data.Length;
    buffer := new byte[44 + n * 2];
    ghost var base := buffer[..];
    WriteRiff(buffer, n);
    WriteFmt(buffer, sampleRate);
    OverwriteTwice(base, 0, RiffPart(n), FmtPart(sampleRate));
    WriteDataHeader(buffer, n);
    OverwriteTwice(base, 0, RiffPart(n) + FmtPart(sampleRate), DataPart(n));
    assert buffer[..44] == WavHeader(n, sampleRate);
    WriteSamples(buffer, SamplesBytes(int16Data[..]));
  }

  /** The sample bytes from offset 44, the header before them left as it is. */
  method WriteSamples(buffer: array<byte>, samples: seq<byte>)
    requires buffer.Length == 44 + |samples|
    modifies buffer
    ensures buffer[..] == old(buffer[..44]) + samples
  {
    forall k | 0 <= k < |samples| {
      buffer[44 + k] := samples[k];
    }
    assert buffer[..] == old(buffer[..44]) + samples;
  }

  /** The file is the three header parts at offsets 0, 12 and 36, then the sample bytes from offset 44. */
  lemma WavParts(samples: seq<int16>, rate: int)
    ensures var f := WavFile(samples, rate);
      && |f| == 44 + 2 * |samples|
      && f[..12] == RiffPart(|samples|) && f[12..36] == FmtPart(rate) && f[36..44] == DataPart(|samples|)
      && f[44..] == SamplesBytes(samples)
  {
  }

  lemma RiffFields(n: nat)
    ensures var p := RiffPart(n);
      p[0..4] == Ascii("RIFF") && DecodeU32(p[4..8]) == (36 + 2 * n) % 0x1_0000_0000 && p[8..12] == Ascii("WAVE")
  {
    assert RiffPart(n)[4..8] == U32Le(36 + n * 2);
    U32RoundTrip(36 + n * 2);
  }

  lemma FmtFields(rate: int)
    ensures var p := FmtPart(rate);
      && p[0..4] == Ascii("fmt ") && DecodeU32(p[4..8]) == 16
      && DecodeU16(p[8..10]) == 1 && DecodeU16(p[10..12]) == 1
      && DecodeU32(p[12..16]) == rate % 0x1_0000_0000 && DecodeU32(p[16..20]) == (rate * 2) % 0x1_0000_0000
      && DecodeU16(p[20..22]) == 2 && DecodeU16(p[22..24]) == 16
  {
    var p := FmtPart(rate);
    assert p[4..8] == U32Le(16) && p[8..10] == U16Le(1) && p[10..12] == U16Le(1);
    assert p[12..16] == U32Le(rate) && p[16..20] == U32Le(rate * 2);
    assert p[20..22] == U16Le(2) && p[22..24] == U16Le(16);
    U32RoundTrip(16);
    U16RoundTrip(1);
    U32RoundTrip(rate);
    U32RoundTrip(rate * 2);
    U16RoundTrip(2);
    U16RoundTrip(16);
  }

  lemma DataFields(n: nat)
    ensures var p := DataPart(n); p[0..4] == Ascii("data") && DecodeU32(p[4..8]) == (2 * n) % 0x1_0000_0000
  {
    assert DataPart(n)[4..8] == U32Le(n * 2);
    U32RoundTrip(n * 2);
  }

  /** The RIFF descriptor fields of a file, read back at offsets 0, 4 and 8. */
  predicate RiffFieldsAt(f: seq<byte>, n: nat)
    requires |f| >= 12
  {
    f[0..4] == Ascii("RIFF") && DecodeU32(f[4..8]) == (36 + 2 * n) % 0x1_0000_0000 && f[8..12] == Ascii("WAVE")
  }

  /** The `fmt ` fields, read back at offsets 12 to 34. */
  predicate FmtFieldsAt(f: seq<byte>, rate: int)
    requires |f| >= 36
  {
    && f[12..16] == Ascii("fmt ") && DecodeU32(f[16..20]) == 16
    && DecodeU16(f[20..22]) == 1 && DecodeU16(f[22..24]) == 1
    && DecodeU32(f[24..28]) == rate % 0x1_0000_0000 && DecodeU32(f[28..32]) == (rate * 2) % 0x1_0000_0000
    && DecodeU16(f[32..34]) == 2 && DecodeU16(f[34..36]) == 16
  }

  /** The `data` header fields, read back at offsets 36 and 40. */
  predicate DataFieldsAt(f: seq<byte>, n: nat)
    requires |f| >= 44
  {
    f[36..40] == Ascii("data") && DecodeU32(f[40..44]) == (2 * n) % 0x1_0000_0000
  }

  lemma RiffAt(f: seq<byte>, n: nat)
    requires |f| >= 12 && f[..12] == RiffPart(n)
    ensures RiffFieldsAt(f, n)
  {
    RiffFields(n);
    var r := f[..12];
    assert f[0..4] == r[0..4] && f[4..8] == r[4..8] && f[8..12] == r[8..12];
  }

  lemma FmtAt(f: seq<byte>, rate: int)
    requires |f| >= 36 && f[12..36] == FmtPart(rate)
    ensures FmtFieldsAt(f, rate)
  {
    FmtFields(rate);
    var m := FmtPart(rate);
    SliceWithin(f, 12, m, 0, 4);
    SliceWithin(f, 12, m, 4, 8);
    SliceWithin(f, 12, m, 8, 10);
    SliceWithin(f, 12, m, 10, 12);
    SliceWithin(f, 12, m, 12, 16);
    SliceWithin(f, 12, m, 16, 20);
    SliceWithin(f, 12, m, 20, 22);
    SliceWithin(f, 12, m, 22, 24);
  }

  lemma DataAt(f: seq<byte>, n: nat)
    requires |f| >= 44 && f[36..44] == DataPart(n)
    ensures DataFieldsAt(f, n)
  {
    DataFields(n);
    var d := f[36..44];
    assert f[36..40] == d[0..4] && f[40..44] == d[4..8];
  }

  /**
   * A WAV file of `n` samples is 44 + 2n bytes: the header fields read back
   * at their offsets, and the samples read back from offset 44.
   */
  lemma WavLayout(samples: seq<int16>, rate: int)
    ensures |WavFile(samples, rate)| == 44 + 2 * |samples|
    ensures RiffFieldsAt(WavFile(samples, rate), |samples|)
    ensures FmtFieldsAt(WavFile(samples, rate), rate)
    ensures DataFieldsAt(WavFile(samples, rate), |samples|)
  {
    var f := WavFile(samples, rate);
    WavParts(samples, rate);
    RiffAt(f, |samples|);
    FmtAt(f, rate);
    DataAt(f, |samples|);
  }

  /** From offset 44 on, a WAV file holds the bytes of its samples, in order. */
  lemma WavSamples(samples: seq<int16>, rate: int)
    ensures WavFile(samples, rate)[44..] == SamplesBytes(samples)
  {
    WavParts(samples, rate);
  }

  /** `binary` has one character per byte of `bytes`, whose code is that byte's value. */
  predicate CharsOfBytes(binary: string, bytes: seq<byte>)
  {
    |binary| == |bytes| && forall i :: 0 <= i < |binary| ==> binary[i] as int == bytes[i] as int
  }

  /** The `binary` string of `arrayBufferToBase64`: one character per byte, its code the byte's value. */
  method BinaryString(bytes: array<byte>) returns (binary: string)
    ensures |binary| == bytes.Length
    ensures forall i :: 0 <= i < bytes.Length ==> binary[i] as int == bytes[i] as int
    ensures Ascii(binary) == bytes[..]
  {
    binary := "";
    var len := bytes.Length;
    for i := 0 to len
      invariant |binary| == i
      invariant forall k :: 0 <= k < i ==> binary[k] as int == bytes[k] as int
    {
      binary := binary + [bytes[i] as int as char];
    }
  }

  /** `merged.set(b, off)`: the chunk is copied in from `off` on. */
  method SetAt(merged: array<int16>, off: nat, b: seq<int16>)
    requires off + |b| <= merged.Length
    modifies merged
    ensures merged[..] == old(merged[..])[..off] + b + old(merged[..])[off + |b|..]
  {
    forall k | 0 <= k < |b| {
      merged[off + k] := b[k];
    }
    assert merged[..] == old(merged[..])[..off] + b + old(merged[..])[off + |b|..];
  }

  /** The merge loop of `sendBufferIfReady`: the queued chunks copied one after another at a running offset. */
  method Merge(queue: seq<seq<int16>>) returns (merged: array<int16>)
    ensures fresh(merged)
    ensures merged[..] == Flatten(queue)
  {
    var totalSamples := TotalLength(queue);
    merged := new int16[totalSamples];
    var off := 0;
    for j := 0 to |queue|
      invariant off == TotalLength(queue[..j]) <= totalSamples
      invariant merged[..off] == Flatten(queue[..j])
    {
      var b := queue[j];
      FlattenPrefix(queue, j);
      PrefixTotal(queue, j + 1);
      SetAt(merged, off, b);
      off := off + |b|;
    }
    assert queue[..|queue|] == queue;
    FlattenLength(queue);
  }

  /** The message a flush sends: the sample rate and the WAV file as the string handed to `btoa`. */
  datatype AudioMessage = AudioMessage(sampleRate: int, binary: string)

  datatype CaptureStep = AlreadyStarted | RetryLater | Capturing

  /** The module state of the capture script. */
  class Capture {
    var started: bool
    var bufferQueue: seq<seq<int16>>
    var sampleRate: int

    constructor ()
      ensures !started && bufferQueue == [] && sampleRate == 44100
    {
      started := false;
      bufferQueue := [];
      sampleRate := 44100;
    }

    /**
     * `sendBufferIfReady(force)`: with two seconds of samples queued, or when
     * forced, the queue is merged in order, encoded and sent, and emptied;
     * otherwise nothing changes.
     */
    method SendBufferIfReady(force: bool) returns (sent: Option<AudioMessage>)
      modifies this
      ensures started == old(started) && sampleRate == old(sampleRate)
      ensures sent.Some? <==> TotalLength(old(bufferQueue)) >= sampleRate * 2 || force
      ensures sent.None? ==> bufferQueue == old(bufferQueue)
      ensures sent.Some? ==>
        (&& bufferQueue == []
         && sent.value.sampleRate == sampleRate
         && CharsOfBytes(sent.value.binary, WavFile(Flatten(old(bufferQueue)), sampleRate))
         && Ascii(sent.value.binary) == WavFile(Flatten(old(bufferQueue)), sampleRate))
    {
      var queue := bufferQueue;
      var totalSamples := TotalLength(queue);
      if !(totalSamples >= sampleRate * 2 || force) {
        return None;
      }
      var merged := Merge(queue);
      bufferQueue := [];
      var wav := EncodeWav(merged, sampleRate);
      var binary := BinaryString(wav);
      sent := Some(AudioMessage(sampleRate, binary));
    }

    /** The worklet's `onmessage`: the converted samples are queued and a flush is tried. */
    method OnWorkletMessage(pcm: seq<int16>) returns (sent: Option<AudioMessage>)
      modifies this
      ensures sent.Some? <==> TotalLength(old(bufferQueue) + [pcm]) >= sampleRate * 2
      ensures sent.None? ==> bufferQueue == old(bufferQueue) + [pcm]
      ensures sent.Some? ==>
        && bufferQueue == []
        && CharsOfBytes(sent.value.binary, WavFile(Flatten(old(bufferQueue) + [pcm]), sampleRate))
        && Ascii(sent.value.binary) == WavFile(Flatten(old(bufferQueue) + [pcm]), sampleRate)
    {
      bufferQueue := bufferQueue + [pcm];
      sent := SendBufferIfReady(false);
    }

    /** The three-second quiet timer: whatever is queued is sent, however little. */
    method OnQuietTimeout() returns (sent: Option<AudioMessage>)
      modifies this
      ensures sent.Some? <==> |old(bufferQueue)| > 0
      ensures sent.None? ==> bufferQueue == old(bufferQueue)
      ensures sent.Some? ==>
        && bufferQueue == []
        && CharsOfBytes(sent.value.binary, WavFile(Flatten(old(bufferQueue)), sampleRate))
        && Ascii(sent.value.binary) == WavFile(Flatten(old(bufferQueue)), sampleRate)
    {
      sent := None;
      if |bufferQueue| > 0 {
        sent := SendBufferIfReady(true);
      }
    }

    /**
     * The guard of `captureYouTubeAudio`: a second call while started returns
     * at once; without a video the flag is reset and a retry is scheduled.
     * `contextRate` is the AudioContext's sample rate, `None` when setting up
     * the context failed.
     */
    method CaptureYouTubeAudio(videoFound: bool, contextRate: Option<int>) returns (step: CaptureStep)
      modifies this
      ensures bufferQueue == old(bufferQueue)
      ensures old(started) ==> step == AlreadyStarted && started && sampleRate == old(sampleRate)
      ensures !old(started) && !videoFound ==> step == RetryLater && !started && sampleRate == old(sampleRate)
      ensures !old(started) && videoFound ==>
        (step == Capturing && started && sampleRate == (if contextRate.Some? then contextRate.value else old(sampleRate)))
    {
      if started {
        return AlreadyStarted;
      }
      started := true;
      if !videoFound {
        started := false;
        return RetryLater;
      }
      if contextRate.Some? {
        sampleRate := contextRate.value;
      }
      step := Capturing;
    }
  }
}
