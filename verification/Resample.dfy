/** Resampling and framing of 16-bit PCM audio, in exact arithmetic. */
module Resample {
  import opened Arithmetic

  type Byte = x: int | 0 <= x < 256
  type Sample = x: int | -32768 <= x < 32768

  datatype Resampled = Audio(bytes: seq<Byte>) | RateNotPositive | IncompleteSample | DivisionByZero

  // ----------------------------------------------------- little-endian samples

  function Decode(low: Byte, high: Byte): Sample {
    var u := low + 256 * high;
    if u >= 32768 then u - 65536 else u
  }

  function Low(s: Sample): Byte {
    (if s < 0 then s + 65536 else s) % 256
  }

  function High(s: Sample): Byte {
    (if s < 0 then s + 65536 else s) / 256
  }

  function ToSamples(bytes: seq<Byte>): (s: seq<Sample>)
    requires |bytes| % 2 == 0
    ensures |s| == |bytes| / 2
  {
    seq(|bytes| / 2, k requires 0 <= k < |bytes| / 2 => Decode(bytes[2 * k], bytes[2 * k + 1]))
  }

  function ToBytes(s: seq<Sample>): (bytes: seq<Byte>)
    ensures |bytes| == 2 * |s|
  {
    seq(2 * |s|, k requires 0 <= k < 2 * |s| => if k % 2 == 0 then Low(s[k / 2]) else High(s[k / 2]))
  }

  lemma {:induction false} BytesOfSamples(bytes: seq<Byte>)
    requires |bytes| % 2 == 0
    ensures ToBytes(ToSamples(bytes)) == bytes
  {
    forall k | 0 <= k < |bytes| / 2
      ensures Low(Decode(bytes[2 * k], bytes[2 * k + 1])) == bytes[2 * k]
      ensures High(Decode(bytes[2 * k], bytes[2 * k + 1])) == bytes[2 * k + 1]
    {
    }
    hide Decode;
    hide Low;
    hide High;
    forall k | 0 <= k < |bytes| ensures ToBytes(ToSamples(bytes))[k] == bytes[k] {
      assert k == 2 * (k / 2) + k % 2;
    }
  }

  lemma {:induction false} SamplesOfBytes(s: seq<Sample>)
    ensures ToSamples(ToBytes(s)) == s
  {
    forall k | 0 <= k < |s| ensures Decode(Low(s[k]), High(s[k])) == s[k] {
    }
    hide Decode;
    hide Low;
    hide High;
    forall k | 0 <= k < |s| ensures ToSamples(ToBytes(s))[k] == s[k] {
      assert (2 * k) / 2 == k && (2 * k + 1) / 2 == k && (2 * k) % 2 == 0 && (2 * k + 1) % 2 == 1;
    }
  }

  /** Samples are little-endian and in two's complement: the second byte counts 256, and half the range is negative. */
  lemma {:induction false} SamplesAreLittleEndian(bytes: seq<Byte>, k: nat)
    requires |bytes| % 2 == 0 && 2 * k < |bytes|
    ensures 2 * k + 1 < |bytes|
    ensures var v: int := ToSamples(bytes)[k];
      var (low: int, high: int) := (bytes[2 * k], bytes[2 * k + 1]);
      (v + 0x1_0000) % 0x1_0000 == low + 256 * high && (v < 0 <==> high >= 128)
  {
    assert ToSamples(bytes)[k] == Decode(bytes[2 * k], bytes[2 * k + 1]);
  }

  // ---------------------------------------------------------------- arithmetic

  lemma {:induction false} Swap(n: int, rate: int, factor: int)
    ensures n * (rate * factor) == (n * factor) * rate
  {
  }

  lemma {:induction false} Apart(m: int, n: int, d: int)
    requires d > 0 && m > n
    ensures m * d >= n * d + d
    ensures m > n + 1 ==> m * d >= n * d + 2 * d
  {
    Distribute(n, 1, d);
    Monotone(n + 1, m, d);
    if m > n + 1 {
      Distribute(n, 2, d);
      Monotone(n + 2, m, d);
    }
  }

  // ----------------------------------------------------------------- rounding

  /** The nearest integer to a / d, ties going to the even one. */
  function Round(a: int, d: int): int
    requires d > 0
  {
    var q, r := a / d, a % d;
    if 2 * r < d || (2 * r == d && q % 2 == 0) then q else q + 1
  }

  lemma {:induction false} RoundIsNearest(a: int, d: int, n: int)
    requires d > 0
    ensures n == Round(a, d) <==>
      2 * a - d <= 2 * (n * d) <= 2 * a + d && (2 * (n * d) in {2 * a - d, 2 * a + d} ==> n % 2 == 0)
  {
    var q, r := a / d, a % d;
    assert a == q * d + r && 0 <= r < d;
    Between(q, n, d, r);
  }

  /** A multiple of d within half of d of q * d + r is q * d or the next one. */
  lemma {:induction false} Between(q: int, n: int, d: int, r: int)
    requires 0 <= r < d
    ensures 2 * (q * d + r) - d <= 2 * (n * d) <= 2 * (q * d + r) + d ==> n == q || n == q + 1
    ensures (q + 1) * d == q * d + d
  {
    Distribute(q, 1, d);
    if n > q + 1 {
      Apart(n, q, d);
    } else if n < q {
      Apart(q, n, d);
    }
  }

  lemma {:induction false} RoundOfMultiple(n: int, d: int)
    requires d > 0
    ensures Round(n * d, d) == n
  {
    RoundIsNearest(n * d, d, n);
  }

  lemma {:induction false} RoundGrows(a: int, b: int, d: int)
    requires d > 0 && a <= b
    ensures Round(a, d) <= Round(b, d)
  {
    var m, n := Round(a, d), Round(b, d);
    RoundIsNearest(a, d, m);
    RoundIsNearest(b, d, n);
    if m > n {
      Apart(m, n, d);
      assert false;
    }
  }

  // ------------------------------------------------------------- interpolation

  function OutputLength(n: nat, source: int, target: int): nat
    requires source > 0 && target > 0
  {
    var r := Round(n * target, source);
    if r < 1 then 1 else r
  }

  /** The sample before output i's position i * source / target, which is held at the last sample. */
  function Left(n: nat, source: int, target: int, i: nat): (k: nat)
    requires source > 0 && target > 0 && n > 0
  {
    if i * source >= (n - 1) * target then n - 1 else i * source / target
  }

  /** The distance from there, in parts of `target`. */
  function Fraction(n: nat, source: int, target: int, i: nat): nat
    requires source > 0 && target > 0 && n > 0
  {
    if i * source >= (n - 1) * target then 0 else i * source % target
  }

  lemma {:induction false} PositionInRange(n: nat, source: int, target: int, i: nat)
    requires source > 0 && target > 0 && n > 0
    ensures Left(n, source, target, i) < n
    ensures Fraction(n, source, target, i) < target
    ensures i * source < (n - 1) * target ==> Left(n, source, target, i) + 1 < n
  {
    if i * source < (n - 1) * target {
      Parts(i * source, target);
      Cancel(i * source / target, n - 1, target);
    }
  }

  function Right(n: nat, left: nat): nat
    requires n > 0
  {
    if left + 1 < n then left + 1 else n - 1
  }

  /** The exact interpolated value, times `target`. */
  function Interpolated(a: int, b: int, fraction: nat, target: int): int {
    a * target + (b - a) * fraction
  }

  function Clamp(x: int): Sample {
    if x < -32768 then -32768 else if x > 32767 then 32767 else x
  }

  function OutputSample(s: seq<Sample>, source: int, target: int, i: nat): Sample
    requires source > 0 && target > 0 && |s| > 0
  {
    PositionInRange(|s|, source, target, i);
    var left := Left(|s|, source, target, i);
    Clamp(Round(Interpolated(s[left], s[Right(|s|, left)], Fraction(|s|, source, target, i), target), target))
  }

  function Output(s: seq<Sample>, source: int, target: int): (r: seq<Sample>)
    requires source > 0 && target > 0
  {
    if source == target || |s| < 2 then s
    else seq(OutputLength(|s|, source, target), i requires i >= 0 => OutputSample(s, source, target, i))
  }

  lemma {:induction false} BetweenEnds(a: int, b: int, fraction: nat, target: int)
    requires fraction <= target && a <= b
    ensures a * target <= Interpolated(a, b, fraction, target) <= b * target
  {
    assert (b - a) * fraction <= (b - a) * target;
    assert b * target == a * target + (b - a) * target;
  }

  lemma {:induction false} BetweenEndsDown(a: int, b: int, fraction: nat, target: int)
    requires fraction <= target && b <= a
    ensures b * target <= Interpolated(a, b, fraction, target) <= a * target
  {
    assert (b - a) * fraction == -((a - b) * fraction);
    assert 0 <= (a - b) * fraction <= (a - b) * target;
    assert a * target == b * target + (a - b) * target;
  }

  /** An output sample lies between its two neighbours, so clamping never changes it, and is the nearest integer. */
  lemma {:induction false} OutputLiesBetween(s: seq<Sample>, source: int, target: int, i: nat)
    requires source > 0 && target > 0 && |s| > 0
    ensures Left(|s|, source, target, i) < |s|
    ensures var left := Left(|s|, source, target, i);
      var (a, b, v) := (s[left], s[Right(|s|, left)], OutputSample(s, source, target, i));
      var exact := Interpolated(a, b, Fraction(|s|, source, target, i), target);
      && (a <= v <= b || b <= v <= a)
      && v == Round(exact, target)
  {
    PositionInRange(|s|, source, target, i);
    var left := Left(|s|, source, target, i);
    var a, b := s[left], s[Right(|s|, left)];
    var fraction := Fraction(|s|, source, target, i);
    var exact := Interpolated(a, b, fraction, target);
    RoundOfMultiple(a, target);
    RoundOfMultiple(b, target);
    hide Round;
    if a <= b {
      BetweenEnds(a, b, fraction, target);
      RoundGrows(a * target, exact, target);
      RoundGrows(exact, b * target, target);
    } else {
      BetweenEndsDown(a, b, fraction, target);
      RoundGrows(b * target, exact, target);
      RoundGrows(exact, a * target, target);
    }
  }

  lemma {:induction false} QuotientIs(n: nat, d: int, k: nat)
    requires d > 0 && k * d <= n < (k + 1) * d
    ensures n / d == k && n % d == n - k * d
  {
    var q, r := n / d, n % d;
    assert n == q * d + r;
    Distribute(k, 1, d);
    if q < k {
      Apart(k, q, d);
    } else if q > k {
      Apart(q, k, d);
    }
  }

  lemma {:induction false} BetweenSamples(n: nat, source: int, target: int, i: nat, k: nat)
    requires source > 0 && target > 0 && k + 1 < n && k * target <= i * source < (k + 1) * target
    ensures Left(n, source, target, i) == k && Right(n, k) == k + 1
    ensures Fraction(n, source, target, i) == i * source - k * target
  {
    QuotientIs(i * source, target, k);
    Monotone(k + 1, n - 1, target);
  }

  lemma {:induction false} RoundedFrom(exact: int, linear: int, target: int, v: int)
    requires target > 0 && v == Round(exact, target) && exact == linear
    ensures var d := 2 * (v * target - linear);
      -target <= d <= target && (d in {-target, target} ==> v % 2 == 0)
  {
    RoundIsNearest(exact, target, v);
    hide Round;
  }

  /**
   * Between two samples the output is their linear interpolation at its position, i * source / target, to the nearest
   * integer and to the even one on a tie; from the last sample on it is that sample.
   */
  lemma {:induction false} OutputIsInterpolated(s: seq<Sample>, source: int, target: int, i: nat, k: nat)
    requires source > 0 && target > 0 && source != target && |s| >= 2 && i < |Output(s, source, target)|
    ensures k + 1 < |s| && k * target <= i * source < (k + 1) * target ==>
      var v := Output(s, source, target)[i];
      var d := 2 * (v * target - (s[k] * target + (s[k + 1] - s[k]) * (i * source - k * target)));
      -target <= d <= target && (d in {-target, target} ==> v % 2 == 0)
    ensures i * source >= (|s| - 1) * target ==> Output(s, source, target)[i] == s[|s| - 1]
  {
    OutputIs(s, source, target);
    OutputLiesBetween(s, source, target, i);
    if k + 1 < |s| && k * target <= i * source < (k + 1) * target {
      BetweenSamples(|s|, source, target, i, k);
      var linear := s[k] * target + (s[k + 1] - s[k]) * (i * source - k * target);
      var exact := Interpolated(s[k], s[k + 1], i * source - k * target, target);
      RoundedFrom(exact, linear, target, OutputSample(s, source, target, i));
    }
    hide Output;
    hide OutputSample;
    hide Interpolated;
    hide Round;
  }

  /** The output has the input's duration to within half a sample, unless that rounds to nothing. */
  lemma {:induction false} LengthKeepsDuration(s: seq<Sample>, source: int, target: int)
    requires source > 0 && target > 0 && source != target && |s| >= 2
    ensures var n := |Output(s, source, target)|;
      if 2 * (|s| * target) <= source then n == 1
      else 2 * (|s| * target) - source <= 2 * (n * source) <= 2 * (|s| * target) + source
  {
    var n := |s| * target;
    RoundIsNearest(n, source, Round(n, source));
    RoundIsNearest(n, source, 0);
    RoundIsNearest(n, source, 1);
    RoundOfMultiple(0, source);
    RoundGrows(0, n, source);
    var r := Round(n, source);
    hide Round;
    assert r == 0 || r >= 1;
  }

  // ---------------------------------------------------------------- round trip

  lemma {:induction false} LengthIs(s: seq<Sample>, source: int, target: int, n: nat)
    requires source > 0 && target > 0 && source != target && |s| >= 2 && n >= 1 && |s| * target == n * source
    ensures |Output(s, source, target)| == n
  {
    RoundOfMultiple(n, source);
    hide Round;
    hide OutputSample;
  }

  lemma {:induction false} OutputAt(s: seq<Sample>, source: int, target: int, i: nat, k: nat)
    requires source > 0 && target > 0 && source != target && |s| >= 2
    requires i < |Output(s, source, target)| && k < |s| && i * source == k * target
    ensures Output(s, source, target)[i] == s[k]
  {
    AtSample(s, source, target, i, k);
    hide OutputSample;
    hide OutputLength;
  }

  /** Upsampling by a whole factor keeps every input sample. */
  lemma {:induction false} UpsamplingKeepsSamples(s: seq<Sample>, rate: int, factor: int, i: nat)
    requires rate > 0 && factor > 1 && |s| >= 2 && i < |s|
    ensures rate * factor > rate
    ensures |Output(s, rate, rate * factor)| == |s| * factor
    ensures 0 <= i * factor < |s| * factor
    ensures Output(s, rate, rate * factor)[i * factor] == s[i]
  {
    hide Output;
    Scaled(rate, factor);
    Scaled(|s|, factor);
    Apart(|s|, i, factor);
    Monotone(0, i, factor);
    Swap(|s|, rate, factor);
    LengthIs(s, rate, rate * factor, |s| * factor);
    Swap(i, rate, factor);
    OutputAt(s, rate, rate * factor, i * factor, i);
  }

  lemma {:induction false} Scaled(n: int, factor: int)
    requires n > 0 && factor > 1
    ensures n * factor > n
  {
  }

  /** A position on a sample gives that sample. */
  lemma {:induction false} AtSample(s: seq<Sample>, source: int, target: int, i: nat, k: nat)
    requires source > 0 && target > 0 && k < |s| && i * source == k * target
    ensures OutputSample(s, source, target, i) == s[k]
  {
    LeftIs(|s|, source, target, i, k);
    RoundOfMultiple(s[k], target);
    SampleIs(s, source, target, i);
    hide OutputSample;
    hide Round;
    hide Left;
    hide Fraction;
  }

  lemma {:induction false} LeftIs(n: nat, source: int, target: int, i: nat, k: nat)
    requires source > 0 && target > 0 && k < n && i * source == k * target
    ensures Left(n, source, target, i) == k && Fraction(n, source, target, i) == 0
  {
    Quotient(k, target);
    if k < n - 1 {
      Apart(n - 1, k, target);
    }
  }

  lemma {:induction false} Quotient(k: int, d: int)
    requires d > 0
    ensures (k * d) / d == k && (k * d) % d == 0
  {
    var q, r := (k * d) / d, (k * d) % d;
    assert k * d == q * d + r;
    if q < k {
      Apart(k, q, d);
    } else if q > k {
      Apart(q, k, d);
    }
  }

  /** Upsampling by a whole factor and back returns the samples. */
  lemma {:induction false} UpAndDown(s: seq<Sample>, rate: int, factor: int)
    requires rate > 0 && factor > 0
    ensures Output(Output(s, rate, rate * factor), rate * factor, rate) == s
  {
    if factor == 1 {
      assert rate * factor == rate;
    } else if |s| >= 2 {
      hide Output;
      UpsamplingKeepsSamples(s, rate, factor, 0);
      var target := rate * factor;
      var up := Output(s, rate, target);
      Scaled(|s|, factor);
      Swap(|s|, rate, factor);
      LengthIs(up, target, rate, |s|);
      var down := Output(up, target, rate);
      forall i | 0 <= i < |s| ensures down[i] == s[i] {
        UpsamplingKeepsSamples(s, rate, factor, i);
        Swap(i, rate, factor);
        OutputAt(up, target, rate, i, i * factor);
      }
    } else {
      ShortIsKept(s, rate, rate * factor);
      ShortIsKept(s, rate * factor, rate);
    }
  }

  lemma {:induction false} ShortIsKept(s: seq<Sample>, source: int, target: int)
    requires source > 0 && target > 0 && |s| < 2
    ensures Output(s, source, target) == s
  {
  }

  // ------------------------------------------------------------------- methods

  /**
   * What the function returns or raises. A target rate that is not positive is not refused as such: audio that needs
   * no resampling is returned, and of other audio a negative rate leaves the first sample.
   */
  function Spec(chunk: seq<Byte>, source: int, target: int): Resampled {
    if source <= 0 then RateNotPositive
    else if |chunk| % 2 != 0 then IncompleteSample
    else if target > 0 then Audio(ToBytes(Output(ToSamples(chunk), source, target)))
    else if |chunk| < 4 then Audio(chunk)
    else if target == 0 then DivisionByZero
    else Audio(chunk[..2])
  }

  method ResamplePcm16Mono(chunk: seq<Byte>, source: int, target: int) returns (r: Resampled)
    ensures r == Spec(chunk, source, target)
  {
    if source <= 0 {
      return RateNotPositive;
    }
    if |chunk| % 2 != 0 {
      return IncompleteSample;
    }
    BytesOfSamples(chunk);
    if source == target {
      return Audio(chunk);
    }
    var samples := ToSamples(chunk);
    if |samples| < 2 {
      return Audio(chunk);
    }
    if target == 0 {
      return DivisionByZero;
    }
    if target < 0 {
      // The length is forced to one, and the only position is zero.
      FirstSample(chunk);
      return Audio(ToBytes([samples[0]]));
    }
    var output := InterpolateAll(samples, source, target);
    return Audio(ToBytes(output));
  }

  lemma {:induction false} FirstSample(chunk: seq<Byte>)
    requires |chunk| % 2 == 0 && |chunk| >= 2
    ensures ToBytes([ToSamples(chunk)[0]]) == chunk[..2]
  {
    BytesOfSamples(chunk[..2]);
    assert ToSamples(chunk[..2]) == [ToSamples(chunk)[0]];
  }

  /** The loop that appends one interpolated sample after another. */
  method InterpolateAll(samples: seq<Sample>, source: int, target: int) returns (output: seq<Sample>)
    requires source > 0 && target > 0 && source != target && |samples| >= 2
    ensures output == Output(samples, source, target)
  {
    hide *;
    var length := OutputLength(|samples|, source, target);
    OutputIs(samples, source, target);
    output := [];
    for i := 0 to length
      invariant output == Output(samples, source, target)[..i]
    {
      PositionInRange(|samples|, source, target, i);
      var left := Left(|samples|, source, target, i);
      RightInRange(|samples|, left);
      var right := Right(|samples|, left);
      var fraction := Fraction(|samples|, source, target, i);
      var value := Clamp(Round(Interpolated(samples[left], samples[right], fraction, target), target));
      SampleIs(samples, source, target, i);
      output := output + [value];
    }
  }

  lemma {:induction false} OutputIs(s: seq<Sample>, source: int, target: int)
    requires source > 0 && target > 0 && source != target && |s| >= 2
    ensures |Output(s, source, target)| == OutputLength(|s|, source, target)
    ensures forall i :: 0 <= i < |Output(s, source, target)| ==>
      Output(s, source, target)[i] == OutputSample(s, source, target, i)
  {
    hide OutputSample;
    hide OutputLength;
  }

  lemma {:induction false} SampleIs(s: seq<Sample>, source: int, target: int, i: nat)
    requires source > 0 && target > 0 && |s| > 0
    ensures Left(|s|, source, target, i) < |s| && Right(|s|, Left(|s|, source, target, i)) < |s|
    ensures var left := Left(|s|, source, target, i);
      OutputSample(s, source, target, i) ==
        Clamp(Round(Interpolated(s[left], s[Right(|s|, left)], Fraction(|s|, source, target, i), target), target))
  {
    PositionInRange(|s|, source, target, i);
    RightInRange(|s|, Left(|s|, source, target, i));
    hide Round;
    hide Interpolated;
    hide Left;
    hide Right;
    hide Fraction;
    hide Clamp;
  }

  lemma {:induction false} RightInRange(n: nat, left: nat)
    requires n > 0
    ensures Right(n, left) < n
  {
  }

  /** On bytes: upsampling a whole number of samples by a factor and back returns them. */
  lemma {:induction false} RoundTrip(chunk: seq<Byte>, rate: int, factor: int)
    requires rate > 0 && factor > 0 && |chunk| % 2 == 0
    ensures rate * factor > 0
    ensures var up := Spec(chunk, rate, rate * factor);
      up.Audio? && Spec(up.bytes, rate * factor, rate) == Audio(chunk)
  {
    assert rate * factor > 0;
    var up := Output(ToSamples(chunk), rate, rate * factor);
    SamplesOfBytes(up);
    UpAndDown(ToSamples(chunk), rate, factor);
    BytesOfSamples(chunk);
    hide Output;
    hide ToSamples;
    hide ToBytes;
  }

  // ------------------------------------------------------------------- frames

  datatype Split = Frames(frames: seq<seq<Byte>>) | BadFrameLength

  function Flatten(frames: seq<seq<Byte>>): seq<Byte> {
    if frames == [] then [] else Flatten(frames[..|frames| - 1]) + frames[|frames| - 1]
  }

  function BytesPerFrame(rate: int, frameMs: int): int {
    rate * frameMs / 1000 * 2
  }

  /** Whole frames in order; what is left over is shorter than a frame. */
  ghost predicate IsSplit(chunk: seq<Byte>, size: int, frames: seq<seq<Byte>>)
    requires size > 0
  {
    && (forall k :: 0 <= k < |frames| ==> |frames[k]| == size)
    && Flatten(frames) <= chunk
    && |chunk| - |Flatten(frames)| < size
  }

  method SplitPcm16Frames(chunk: seq<Byte>, rate: int, frameMs: int) returns (r: Split)
    ensures r.BadFrameLength? <==> frameMs !in {10, 20, 30}
    ensures r.Frames? && BytesPerFrame(rate, frameMs) <= 0 ==> r.frames == []
    ensures r.Frames? && BytesPerFrame(rate, frameMs) > 0 ==> IsSplit(chunk, BytesPerFrame(rate, frameMs), r.frames)
  {
    if frameMs !in {10, 20, 30} {
      return BadFrameLength;
    }
    hide BytesPerFrame;
    var size := BytesPerFrame(rate, frameMs);
    if size <= 0 || |chunk| < size {
      return Frames([]);
    }
    var frames := WholeFrames(chunk, size);
    return Frames(frames);
  }

  /** The slices at the multiples of `size` that end within the chunk. */
  method WholeFrames(chunk: seq<Byte>, size: int) returns (frames: seq<seq<Byte>>)
    requires size > 0
    ensures IsSplit(chunk, size, frames)
  {
    var complete := |chunk| - |chunk| % size;
    var offset := 0;
    frames := [];
    ghost var count, total := 0, |chunk| / size;
    while offset < complete
      invariant complete == total * size && |chunk| - complete < size && complete <= |chunk|
      invariant offset == count * size && 0 <= offset <= complete
      invariant forall k :: 0 <= k < |frames| ==> |frames[k]| == size
      invariant Flatten(frames) == chunk[..offset]
      decreases complete - offset
    {
      OneMoreFits(count, total, size);
      var frame := chunk[offset..offset + size];
      assert (frames + [frame])[..|frames|] == frames;
      assert chunk[..offset + size] == chunk[..offset] + frame;
      frames := frames + [frame];
      offset := offset + size;
      count := count + 1;
    }
  }

  lemma {:induction false} OneMoreFits(count: int, total: int, size: int)
    requires size > 0 && count * size < total * size
    ensures (count + 1) * size == count * size + size <= total * size
  {
    Distribute(count, 1, size);
    if count < total {
      Monotone(count + 1, total, size);
    } else {
      Monotone(total, count, size);
      assert false;
    }
  }
}
