/**
 * The audio helpers of Frontend/services/geminiService.ts: the
 * character/byte loops around the browser's base64 builtins, the 16-bit
 * little-endian PCM view of a byte buffer, de-interleaving of PCM frames into
 * channels, and the PCM blob built from each captured block of microphone
 * samples.
 *
 * `atob` and `btoa` (base64) are not part of this model: `Decode` starts from
 * the binary string `atob` produced and `Encode` ends with the binary string
 * handed to `btoa`.
 */
module AudioCodec {
  import opened Types

  type Byte = x: int | 0 <= x < 256

  /** A two's-complement 16-bit sample, the element type of an Int16Array. */
  type Int16 = x: int | -32768 <= x < 32768

  /** Storing a character code into a Uint8Array keeps the code modulo 256. */
  function ByteOf(c: char): Byte
  {
    (c as int) % 256
  }

  /** `String.fromCharCode` of a byte. */
  function CharOf(b: Byte): char
  {
    b as char
  }

  /** The bytes a binary string stands for, one per character. */
  function CharsToBytes(s: string): seq<Byte>
  {
    seq(|s|, i requires 0 <= i < |s| => ByteOf(s[i]))
  }

  /** The binary string of a byte sequence, one character per byte. */
  function BytesToChars(bytes: seq<Byte>): string
  {
    seq(|bytes|, i requires 0 <= i < |bytes| => CharOf(bytes[i]))
  }

  /** A binary string: every character code fits in a byte (what `atob` yields). */
  predicate IsBinaryString(s: string)
  {
    forall i :: 0 <= i < |s| ==> (s[i] as int) < 256
  }

  /**
   * `decode` after `atob`: a fresh Uint8Array of the string's length, filled
   * with character code i at index i.
   */
  method Decode(binary: string) returns (bytes: seq<Byte>)
    ensures |bytes| == |binary|
    ensures forall i :: 0 <= i < |binary| ==> bytes[i] == (binary[i] as int) % 256
    ensures bytes == CharsToBytes(binary)
  {
    var buffer := new Byte[|binary|];
    for i := 0 to |binary|
      invariant forall j :: 0 <= j < i ==> buffer[j] == ByteOf(binary[j])
    {
      buffer[i] := ByteOf(binary[i]);
    }
    bytes := buffer[..];
  }

  /**
   * `encode` before `btoa`: the binary string built by appending
   * `String.fromCharCode(bytes[i])` for each byte in turn.
   */
  method Encode(bytes: seq<Byte>) returns (binary: string)
    ensures |binary| == |bytes|
    ensures forall i :: 0 <= i < |bytes| ==> binary[i] as int == bytes[i]
    ensures binary == BytesToChars(bytes)
  {
    binary := "";
    for i := 0 to |bytes|
      invariant binary == BytesToChars(bytes[..i])
    {
      binary := binary + [CharOf(bytes[i])];
    }
    assert bytes[..|bytes|] == bytes;
  }

  /** Bytes to a binary string and back gives the same bytes. */
  lemma {:induction false} BytesRoundTrip(bytes: seq<Byte>)
    ensures CharsToBytes(BytesToChars(bytes)) == bytes
  {
    var back := CharsToBytes(BytesToChars(bytes));
    forall i | 0 <= i < |bytes| ensures back[i] == bytes[i] {
      assert BytesToChars(bytes)[i] == CharOf(bytes[i]);
    }
  }

  /** A binary string to bytes and back gives the same string. */
  lemma {:induction false} BinaryStringRoundTrip(s: string)
    requires IsBinaryString(s)
    ensures BytesToChars(CharsToBytes(s)) == s
  {
    var back := BytesToChars(CharsToBytes(s));
    forall i | 0 <= i < |s| ensures back[i] == s[i] {
      assert CharsToBytes(s)[i] == s[i] as int;
    }
  }

  // ---------------------------------------------------------------------------
  // 16-bit little-endian PCM

  /** The low byte of a sample's two's-complement encoding. */
  function Low(v: Int16): Byte
  {
    (v % 65536) % 256
  }

  /** The high byte of a sample's two's-complement encoding. */
  function High(v: Int16): Byte
  {
    (v % 65536) / 256
  }

  /** The sample a little-endian byte pair reads as. */
  function FromBytes(lo: Byte, hi: Byte): Int16
  {
    var u := lo + 256 * hi;
    if u >= 32768 then u - 65536 else u
  }

  /** `new Uint8Array(int16.buffer)`: the bytes of an Int16Array on a little-endian host. */
  function LittleEndian(samples: seq<Int16>): (bytes: seq<Byte>)
  {
    seq(2 * |samples|, k requires 0 <= k < 2 * |samples| =>
      if k % 2 == 0 then Low(samples[k / 2]) else High(samples[k / 2]))
  }

  /**
   * `new Int16Array(data.buffer)`: the samples a byte buffer holds, read two
   * bytes at a time; a buffer of odd length makes the constructor throw a
   * RangeError (None).
   */
  function Int16View(bytes: seq<Byte>): (r: Option<seq<Int16>>)
    ensures r.None? <==> |bytes| % 2 == 1
    ensures r.Some? ==> 2 * |r.value| == |bytes|
  {
    if |bytes| % 2 == 1 then None
    else Some(seq(|bytes| / 2, i requires 0 <= i < |bytes| / 2 => FromBytes(bytes[2 * i], bytes[2 * i + 1])))
  }

  lemma SampleBytesRoundTrip(v: Int16)
    ensures FromBytes(Low(v), High(v)) == v
  {
    var u := v % 65536;
    assert Low(v) + 256 * High(v) == u;
    assert v >= 0 ==> u == v;
    assert v < 0 ==> u == v + 65536;
  }

  lemma BytePairRoundTrip(lo: Byte, hi: Byte)
    ensures Low(FromBytes(lo, hi)) == lo && High(FromBytes(lo, hi)) == hi
  {
    var u := lo + 256 * hi;
    assert FromBytes(lo, hi) % 65536 == u;
  }

  /**
   * Serialising samples little-endian and reading the bytes back through an
   * Int16Array view gives the same samples; the byte count is twice the
   * sample count.
   */
  lemma {:induction false} Int16RoundTrip(samples: seq<Int16>)
    ensures |LittleEndian(samples)| == 2 * |samples|
    ensures Int16View(LittleEndian(samples)) == Some(samples)
  {
    var bytes := LittleEndian(samples);
    var view := Int16View(bytes).value;
    assert |view| == |samples|;
    forall i | 0 <= i < |samples| ensures view[i] == samples[i] {
      assert bytes[2 * i] == Low(samples[i]);
      assert bytes[2 * i + 1] == High(samples[i]);
      SampleBytesRoundTrip(samples[i]);
    }
    assert view == samples;
  }

  /** Conversely, an even-length buffer is exactly the serialisation of its view. */
  lemma {:induction false} BytesViewRoundTrip(bytes: seq<Byte>)
    requires |bytes| % 2 == 0
    ensures LittleEndian(Int16View(bytes).value) == bytes
  {
    var view := Int16View(bytes).value;
    var back := LittleEndian(view);
    forall k | 0 <= k < |bytes| ensures back[k] == bytes[k] {
      var i := k / 2;
      BytePairRoundTrip(bytes[2 * i], bytes[2 * i + 1]);
    }
  }

  // ---------------------------------------------------------------------------
  // Samples and channels

  /** An Int16 sample rescaled to a float sample by `/ 32768.0`; exact, and in [-1, 1). */
  function Sample(v: Int16): (x: real)
    ensures -1.0 <= x < 1.0
    ensures x * 32768.0 == v as real
  {
    v as real / 32768.0
  }

  /**
   * The mono samples of a decoded chunk, or None when its byte count is odd
   * (the Int16Array view throws) or zero (`createBuffer` with no frames throws).
   */
  function MonoSamples(bytes: seq<Byte>): (r: Option<seq<real>>)
    ensures r.None? <==> |bytes| % 2 == 1 || |bytes| == 0
    ensures r.Some? ==> 2 * |r.value| == |bytes|
  {
    match Int16View(bytes)
    case None => None
    case Some(ints) =>
      if |ints| == 0 then None
      else Some(seq(|ints|, i requires 0 <= i < |ints| => Sample(ints[i])))
  }

  /** Frame i of channel c sits at index i * k + c of an interleaved buffer of k channels: in bounds. */
  lemma InterleavedIndexInBounds(i: nat, c: nat, k: nat, n: nat)
    requires c < k && i < n / k
    ensures i * k + c < n
  {
    MultiplyMonotone(i + 1, n / k, k);
    assert (n / k) * k <= n;
  }

  lemma MultiplyMonotone(a: nat, b: nat, k: nat)
    requires a <= b
    ensures a * k <= b * k
  {
  }

  /** Two (frame, channel) pairs with the same interleaved index are the same pair. */
  lemma InterleavedIndexUnique(i: nat, c: nat, i': nat, c': nat, k: nat)
    requires c < k && c' < k && i * k + c == i' * k + c'
    ensures i == i' && c == c'
  {
    if i < i' {
      MultiplyMonotone(i + 1, i', k);
      assert false;
    } else if i' < i {
      MultiplyMonotone(i' + 1, i, k);
      assert false;
    }
  }

  /**
   * Every index j of a buffer whose length n is a multiple of k is the
   * interleaved index of frame j / k (a frame of the buffer) and channel j % k.
   */
  lemma InterleavedIndexCovers(j: nat, k: nat, n: nat)
    requires k >= 1 && n % k == 0 && j < n
    ensures j / k < n / k && j % k < k && (j / k) * k + j % k == j
  {
    if j / k >= n / k {
      MultiplyMonotone(n / k, j / k, k);
      assert false;
    }
  }

  /** Channel c of a buffer of k interleaved channels: frame i is the sample at i * k + c. */
  function ChannelOf(ints: seq<Int16>, k: nat, c: nat): (channel: seq<real>)
    requires c < k
    ensures |channel| == |ints| / k
  {
    seq(|ints| / k, i requires 0 <= i < |ints| / k =>
      InterleavedIndexInBounds(i, c, k, |ints|);
      Sample(ints[i * k + c]))
  }

  /** All k channels of an interleaved buffer. */
  function DeInterleave(ints: seq<Int16>, k: nat): (channels: seq<seq<real>>)
    ensures |channels| == k
    ensures forall c :: 0 <= c < k ==> |channels[c]| == |ints| / k
  {
    seq(k, c requires 0 <= c < k => ChannelOf(ints, k, c))
  }

  /**
   * `decodeAudioData`: reinterpret the bytes as Int16 samples and split them
   * into `numChannels` channels of `frameCount` frames each, frame i of
   * channel c being `v / 32768` for the sample v at index i * numChannels + c.
   * An odd byte count makes the Int16Array view throw (None). When the sample
   * count is not a multiple of the channel count, the buffer's length is
   * truncated and the last partial frame is dropped; a buffer of no frames
   * makes `createBuffer` throw (None).
   */
  method DecodeAudioData(data: seq<Byte>, numChannels: nat) returns (r: Option<seq<seq<real>>>)
    requires numChannels >= 1
    ensures r.None? <==> |data| % 2 == 1 || (|data| / 2) / numChannels == 0
    ensures r.Some? ==> r.value == DeInterleave(Int16View(data).value, numChannels)
    ensures r.Some? ==> forall c :: 0 <= c < numChannels ==> |r.value[c]| == (|data| / 2) / numChannels
  {
    var view := Int16View(data);
    if view.None? {
      return None;
    }
    var ints := view.value;
    var frameCount := |ints| / numChannels;
    if frameCount == 0 {
      return None;
    }
    ghost var want := DeInterleave(ints, numChannels);
    var channels: seq<seq<real>> := [];
    for channel := 0 to numChannels
      invariant channels == want[..channel]
    {
      var channelData := new real[frameCount];
      for i := 0 to frameCount
        invariant forall j :: 0 <= j < i ==> channelData[j] == want[channel][j]
      {
        InterleavedIndexInBounds(i, channel, numChannels, |ints|);
        channelData[i] := Sample(ints[i * numChannels + channel]);
      }
      assert channelData[..] == want[channel];
      channels := channels + [channelData[..]];
    }
    assert want[..numChannels] == want;
    r := Some(channels);
  }

  /** Mono de-interleaving is the plain sample sequence of the buffer. */
  lemma {:induction false} MonoDeInterleave(bytes: seq<Byte>)
    requires |bytes| % 2 == 0 && |bytes| > 0
    ensures DeInterleave(Int16View(bytes).value, 1) == [MonoSamples(bytes).value]
  {
    var ints := Int16View(bytes).value;
    var mono := MonoSamples(bytes).value;
    var ch := DeInterleave(ints, 1)[0];
    forall i | 0 <= i < |ints| ensures ch[i] == mono[i] {
      assert i * 1 + 0 == i;
    }
    assert ch == mono;
  }

  // ---------------------------------------------------------------------------
  // Outbound PCM

  /** The wire blob of one captured block. */
  datatype RealtimeBlob = RealtimeBlob(data: string, mimeType: string)

  const PcmMimeType: string := "audio/pcm;rate=16000"

  /** Truncation toward zero, as ECMAScript's ToInt16 does first. */
  function Truncate(x: real): int
  {
    if x >= 0.0 then x.Floor else -((-x).Floor)
  }

  /** ECMAScript ToInt16 of a finite number: truncate, then wrap modulo 2^16 into [-32768, 32767]. */
  function ToInt16(x: real): (v: Int16)
    ensures (v - Truncate(x)) % 65536 == 0
  {
    var u := Truncate(x) % 65536;
    if u >= 32768 then u - 65536 else u
  }

  /** `int16[i] = data[i] * 32768`: the stored sample of one float sample. */
  function Quantize(x: real): Int16
  {
    ToInt16(x * 32768.0)
  }

  /** The payload string of a captured block, as handed to `btoa`. */
  function PcmPayload(data: seq<real>): string
  {
    BytesToChars(LittleEndian(seq(|data|, i requires 0 <= i < |data| => Quantize(data[i]))))
  }

  /**
   * `createPcmBlob`: quantise each float sample into an Int16Array, view its
   * buffer as bytes and encode them as a binary string.
   */
  method CreatePcmBlob(data: seq<real>) returns (blob: RealtimeBlob)
    ensures blob.mimeType == "audio/pcm;rate=16000"
    ensures |blob.data| == 2 * |data|
    ensures blob.data == PcmPayload(data)
  {
    var int16 := new Int16[|data|];
    for i := 0 to |data|
      invariant forall j :: 0 <= j < i ==> int16[j] == Quantize(data[j])
    {
      int16[i] := Quantize(data[i]);
    }
    assert int16[..] == seq(|data|, i requires 0 <= i < |data| => Quantize(data[i]));
    var encoded := Encode(LittleEndian(int16[..]));
    blob := RealtimeBlob(encoded, PcmMimeType);
  }

  /**
   * A float sample in [-1, 1) survives quantisation and rescaling to within
   * one 16-bit step, and never wraps.
   */
  lemma QuantizeWithinOneStep(x: real)
    requires -1.0 <= x < 1.0
    ensures Quantize(x) == Truncate(x * 32768.0)
    ensures -1.0 / 32768.0 < Sample(Quantize(x)) - x < 1.0 / 32768.0
  {
    var y := x * 32768.0;
    var t := Truncate(y);
    assert -32768.0 <= y < 32768.0;
    assert -32768 <= t < 32768;
    assert y - 1.0 < t as real < y + 1.0;
    assert t >= 0 ==> t % 65536 == t;
    assert t < 0 ==> t % 65536 == t + 65536;
  }

  /** The full-scale sample 1.0 wraps to -32768 and comes back as -1.0. */
  lemma FullScaleWraps()
    ensures Quantize(1.0) == -32768
    ensures Sample(Quantize(1.0)) == -1.0
  {
    assert Truncate(32768.0) == 32768;
  }

  /**
   * The outbound payload of a block read back as inbound mono PCM gives one
   * sample per input sample, each within one 16-bit step of the input when the
   * input lies in [-1, 1).
   */
  lemma {:induction false} PcmRoundTrip(data: seq<real>)
    requires forall i :: 0 <= i < |data| ==> -1.0 <= data[i] < 1.0
    ensures MonoSamples(CharsToBytes(PcmPayload(data))).Some? <==> |data| > 0
    ensures |data| > 0 ==> |MonoSamples(CharsToBytes(PcmPayload(data))).value| == |data|
    ensures |data| > 0 ==> forall i :: 0 <= i < |data| ==>
      -1.0 / 32768.0 < MonoSamples(CharsToBytes(PcmPayload(data))).value[i] - data[i] < 1.0 / 32768.0
  {
    var ints := seq(|data|, i requires 0 <= i < |data| => Quantize(data[i]));
    BytesRoundTrip(LittleEndian(ints));
    Int16RoundTrip(ints);
    if |data| > 0 {
      var back := MonoSamples(CharsToBytes(PcmPayload(data))).value;
      forall i | 0 <= i < |data|
        ensures -1.0 / 32768.0 < back[i] - data[i] < 1.0 / 32768.0
      {
        QuantizeWithinOneStep(data[i]);
      }
    }
  }
}
