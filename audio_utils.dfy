/**
 * The sample helpers of src/utils/audioUtils.ts: the float-to-PCM conversion,
 * the PCM-to-bytes view and the chunking of a sample buffer.
 *
 * Float32 samples are real numbers: the model computes the clamp and the
 * scale exactly, without the rounding of 32-bit floating point.
 */
module AudioUtils {
  import opened Pcm
  import opened Seqs

  /** `Math.max(-1, Math.min(1, x))`. */
  function Clamp(x: real): (s: real)
    ensures -1.0 <= s <= 1.0
    ensures -1.0 <= x <= 1.0 ==> s == x
  {
    if x > 1.0 then 1.0 else if x < -1.0 then -1.0 else x
  }

  /** Truncation toward zero, as storing into an `Int16Array` does. */
  function Trunc(v: real): (t: int)
    ensures v >= 0.0 ==> t as real <= v < t as real + 1.0
    ensures v < 0.0 ==> t as real - 1.0 < v <= t as real
  {
    if v < 0.0 then -((-v).Floor) else v.Floor
  }

  /** One converted sample: negative values scale by 0x8000, the others by 0x7fff. */
  function Sample(x: real): int16
  {
    var s := Clamp(x);
    var v := if s < 0.0 then s * 32768.0 else s * 32767.0;
    assert -32768.0 <= v <= 32767.0;
    Trunc(v) as int16
  }

  /** The conversion keeps the order of samples and saturates outside [-1, 1]. */
  lemma SampleMonotone(x: real, y: real)
    requires x <= y
    ensures Sample(x) <= Sample(y)
  {
    var s, t := Clamp(x), Clamp(y);
    assert s <= t;
  }

  lemma SampleSaturates(x: real)
    ensures x >= 1.0 ==> Sample(x) == 0x7fff
    ensures x <= -1.0 ==> Sample(x) == -0x8000
    ensures x == 0.0 ==> Sample(x) == 0
  {
  }

  /** `float32ToInt16(buffer)`. */
  method Float32ToInt16(buffer: array<real>) returns (result: array<int16>)
    ensures fresh(result)
    ensures result.Length == buffer.Length
    ensures forall i :: 0 <= i < buffer.Length ==> result[i] == Sample(buffer[i])
  {
    var len := buffer.Length;
    result := new int16[len];
    for i := 0 to len
      invariant forall k :: 0 <= k < i ==> result[k] == Sample(buffer[k])
    {
      result[i] := Sample(buffer[i]);
    }
  }

  /** `int16ToArrayBuffer(int16)`: a buffer of two bytes per sample, holding the samples in order. */
  method Int16ToArrayBuffer(int16: array<int16>) returns (buffer: array<byte>)
    ensures fresh(buffer)
    ensures buffer[..] == SamplesBytes(int16[..])
  {
    var bytes := SamplesBytes(int16[..]);
    buffer := new byte[|bytes|];
    forall k | 0 <= k < |bytes| {
      buffer[k] := bytes[k];
    }
    assert buffer[..] == bytes;
    assert int16[..] == old(int16[..]);
  }

  /** The samples read back from `int16ToArrayBuffer`'s buffer are the samples given. */
  lemma ArrayBufferHoldsSamples(samples: seq<int16>)
    ensures DecodeSamples(SamplesBytes(samples)) == samples
  {
    DecodeSamplesBytes(samples);
  }

  /**
   * `chunkFloat32Array(buffer, chunkSize)`: views of `chunkSize` samples, the
   * last one shorter when the length is not a multiple. The loop only ends
   * when the chunk size is positive.
   */
  method ChunkFloat32Array(buffer: array<real>, chunkSize: nat) returns (result: seq<seq<real>>)
    requires chunkSize > 0
    ensures Flatten(result) == buffer[..]
    ensures forall j :: 0 <= j < |result| - 1 ==> |result[j]| == chunkSize
    ensures |result| > 0 ==> 1 <= |result[|result| - 1]| <= chunkSize
    ensures |result| == (buffer.Length + chunkSize - 1) / chunkSize
  {
    var n := buffer.Length;
    result := [];
    var i := 0;
    while i < n
      invariant |result| == 0 <==> i == 0
      invariant i <= n ==> Flatten(result) == buffer[..i]
      invariant i > n ==> Flatten(result) == buffer[..]
      invariant i < n ==> forall j :: 0 <= j < |result| ==> |result[j]| == chunkSize
      invariant forall j :: 0 <= j < |result| - 1 ==> |result[j]| == chunkSize
      invariant |result| > 0 ==> 1 <= |result[|result| - 1]| <= chunkSize
      decreases n - i
    {
      var end := if i + chunkSize < n then i + chunkSize else n;
      var chunk := buffer[i..end];
      assert buffer[..end] == buffer[..i] + chunk;
      assert (result + [chunk])[..|result|] == result;
      result := result + [chunk];
      i := i + chunkSize;
    }
    if i == n {
      assert buffer[..n] == buffer[..];
    }
    ChunkCount(result, chunkSize, n);
  }

  /** Chunks of exactly `k` elements hold `k` elements each. */
  lemma {:induction false} FullChunks<T>(xss: seq<seq<T>>, k: nat)
    requires forall j :: 0 <= j < |xss| ==> |xss[j]| == k
    ensures TotalLength(xss) == |xss| * k
  {
    if |xss| > 0 {
      FullChunks(xss[..|xss| - 1], k);
    }
  }

  /** Full chunks followed by one of 1 to `k` elements: their number is the ceiling of the total over `k`. */
  lemma ChunkCount<T>(xss: seq<seq<T>>, k: nat, n: nat)
    requires k > 0
    requires |Flatten(xss)| == n
    requires forall j :: 0 <= j < |xss| - 1 ==> |xss[j]| == k
    requires |xss| > 0 ==> 1 <= |xss[|xss| - 1]| <= k
    ensures |xss| == (n + k - 1) / k
  {
    var c := |xss|;
    FlattenLength(xss);
    if c > 0 {
      FullChunks(xss[..c - 1], k);
      assert TotalLength(xss) == (c - 1) * k + |xss[c - 1]|;
    }
    CeilCount(n, k, c);
  }

  /** A count `c` with `(c - 1) * k < n <= c * k` is the ceiling of `n / k`. */
  lemma CeilCount(n: nat, k: nat, c: nat)
    requires k > 0
    requires c > 0 ==> (c - 1) * k < n <= c * k
    requires c == 0 ==> n == 0
    ensures c == (n + k - 1) / k
  {
    if c > 0 {
      var q := (n + k - 1) / k;
      var r := (n + k - 1) % k;
      assert n + k - 1 == q * k + r && 0 <= r < k;
      assert q * k < (c + 1) * k;
      MulStrict(q, c + 1, k);
      assert c * k < (q + 1) * k;
      MulStrict(c, q + 1, k);
    }
  }

  lemma MulStrict(a: int, b: int, k: nat)
    requires k > 0 && a * k < b * k
    ensures a < b
  {
  }
}
