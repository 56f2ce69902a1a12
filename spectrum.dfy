/** The integer side of `processFFT`: how the buffered bytes become the
    FFT's input, which frequency bin each LED of a strip shows, and how a
    bin's magnitude becomes a brightness. The windowing, the transform and
    the magnitude computation are library floating-point code; the model
    takes their result as given (`Magnitudes`). */
module Spectrum {
  import opened Arduino
  import opened Audio
  import opened Leds

  /** The FFT size. */
  const SAMPLES := 512

  /** A magnitude spectrum as the library leaves it in `vReal`. */
  type Magnitudes = s: seq<real> | |s| == SAMPLES witness seq(SAMPLES, k => 0.0)

  /** The real part of the FFT input: sample `i` is byte `2 * i` of the
      buffer, centred, when that byte was delivered, and zero otherwise.
      The imaginary part is all zero. */
  function FftInput(buffer: seq<byte>, len: int): (re: seq<real>)
    requires |buffer| == AUDIO_CAPACITY
    ensures |re| == SAMPLES
    ensures forall i :: 0 <= i < SAMPLES ==> -128.0 <= re[i] < 128.0
  {
    seq(SAMPLES, i requires 0 <= i < SAMPLES => if i * 2 < len then Centered(buffer[i * 2]) as real else 0.0)
  }

  function Zeros(): (im: seq<real>)
    ensures |im| == SAMPLES && forall i :: 0 <= i < SAMPLES ==> im[i] == 0.0
  {
    seq(SAMPLES, i => 0.0)
  }

  /** The input is built from the even-numbered delivered bytes only: two
      buffers that agree there give the same input. */
  lemma OnlyEvenBytesRead(b1: seq<byte>, b2: seq<byte>, len: int)
    requires |b1| == |b2| == AUDIO_CAPACITY
    requires forall k :: 0 <= k < len && k < AUDIO_CAPACITY && k % 2 == 0 ==> b1[k] == b2[k]
    ensures FftInput(b1, len) == FftInput(b2, len)
  {
    forall i | 0 <= i < SAMPLES
      ensures FftInput(b1, len)[i] == FftInput(b2, len)[i]
    {
      if i * 2 < len {
        assert (i * 2) % 2 == 0;
      }
    }
  }

  /** After a delivery of `data`, sample `i` is the centred byte `2 * i` of
      `data` while that byte was kept, then zero padding. A full buffer
      (1023 bytes or more) leaves no padding. */
  lemma InputOfDelivery(buffer: seq<byte>, data: seq<byte>)
    requires |buffer| == AUDIO_CAPACITY && buffer[..|Chunk(data)|] == Chunk(data)
    ensures forall i :: 0 <= i < SAMPLES ==>
      FftInput(buffer, |Chunk(data)|)[i] == if i * 2 < |data| then Centered(data[i * 2]) as real else 0.0
    ensures |data| >= 2 * SAMPLES - 1 ==> forall i :: 0 <= i < SAMPLES ==>
      FftInput(buffer, |Chunk(data)|)[i] == Centered(data[i * 2]) as real
  {
    var c := Chunk(data);
    forall i | 0 <= i < SAMPLES && i * 2 < |c|
      ensures buffer[i * 2] == data[i * 2]
    {
      assert buffer[..|c|][i * 2] == c[i * 2];
    }
  }

  /** `map(j, 0, L, 1, SAMPLES / 2)`: the bin LED `j` of an `L`-LED strip shows. */
  function Bin(j: int, L: int): (b: int)
    requires L > 0
    ensures 0 <= j <= L ==> 1 <= b <= SAMPLES / 2
  {
    Map(j, 0, L, 1, SAMPLES / 2)
  }

  /** Every LED of a strip reads a bin in `[1, SAMPLES / 2)`: never the DC
      bin 0, never past the Nyquist bin, and always an index of `vReal`.
      It is `j * 255 / L + 1`. */
  lemma {:induction false} BinInRange(j: int, L: int)
    requires 0 <= j < L
    ensures Bin(j, L) == j * 255 / L + 1
    ensures 1 <= Bin(j, L) < SAMPLES / 2
  {
    var n := j * 255;
    assert 0 <= n < L * 255 by {
      MulMonotone(j, L - 1, 255);
    }
    DivBelow(n, L, 255);
  }

  /** The first LED of a strip shows bin 1, and moving along the strip never
      moves to a lower bin. */
  lemma BinMonotone(j1: int, j2: int, L: int)
    requires 0 <= j1 <= j2 < L
    ensures Bin(0, L) == 1
    ensures Bin(j1, L) <= Bin(j2, L)
  {
    MapLowEnd(0, L, 1, SAMPLES / 2);
    MapMonotone(j1, j2, 0, L, 1, SAMPLES / 2);
  }

  /** The `(int)` cast of a double: truncation toward zero. */
  function TruncReal(x: real): (r: int)
    ensures x >= 0.0 ==> r as real <= x < r as real + 1.0
    ensures x < 0.0 ==> r as real - 1.0 < x <= r as real
  {
    if x >= 0.0 then x.Floor else -((-x).Floor)
  }

  lemma TruncRealMonotone(x1: real, x2: real)
    requires x1 <= x2
    ensures TruncReal(x1) <= TruncReal(x2)
  {
  }

  /** The divisor applied to a magnitude before it is clamped to a byte. */
  const LEVEL_DIVISOR := 10.0

  /** `constrain((int)(m / 10), 0, 255)`: the brightness of an LED whose bin
      has magnitude `m`. */
  function Level(m: real): (r: int)
    ensures 0 <= r <= 255
  {
    Constrain(TruncReal(m / LEVEL_DIVISOR), 0, 255)
  }

  /** A stronger bin is never shown dimmer; a magnitude below 2560 shows as
      a tenth of itself, rounded down, and anything at or above it as 255. */
  lemma LevelMonotone(m1: real, m2: real)
    requires m1 <= m2
    ensures Level(m1) <= Level(m2)
  {
    TruncRealMonotone(m1 / LEVEL_DIVISOR, m2 / LEVEL_DIVISOR);
  }

  lemma LevelOfMagnitude(m: real)
    ensures 0.0 <= m < 2560.0 ==> Level(m) == (m / 10.0).Floor
    ensures m >= 2560.0 ==> Level(m) == 255
    ensures m < 10.0 ==> Level(m) == 0
  {
  }

  /** `CHSV(level, 255, level)` for LED `j` of an `L`-LED strip. */
  function SpectrumPixel(mags: Magnitudes, L: int, j: int): (p: Pixel)
    requires 0 <= j < L
    ensures p.Hsv? && p.hue == p.val && p.sat == FULL && 0 <= p.val <= 255
  {
    BinInRange(j, L);
    var level := Level(mags[Bin(j, L)]);
    Hsv(level, FULL, level)
  }
}
