/** Raw audio as the Bluetooth sink delivers it to `read_data_stream`: a run
    of bytes, of which the controller keeps at most AUDIO_CAPACITY. A byte
    is read as a sample biased by 128. */
module Audio {

  type byte = x: int | 0 <= x < 0x100

  /** The size of `audioBuffer`. */
  const AUDIO_CAPACITY := 1024

  /** The bias subtracted from every byte before analysis. */
  const SAMPLE_BIAS := 128

  function Min(a: int, b: int): int {
    if a <= b then a else b
  }

  /** What one delivery leaves in the buffer: its first AUDIO_CAPACITY
      bytes, the rest silently dropped. */
  function Chunk(data: seq<byte>): (c: seq<byte>)
    ensures |c| <= AUDIO_CAPACITY
    ensures |data| <= AUDIO_CAPACITY ==> c == data
    ensures |data| > AUDIO_CAPACITY ==> |c| == AUDIO_CAPACITY
    ensures c <= data
  {
    data[..Min(|data|, AUDIO_CAPACITY)]
  }

  /** `audioBuffer[i] - 128`: a centred sample in [-128, 127]. */
  function Centered(b: byte): (s: int)
    ensures -SAMPLE_BIAS <= s < SAMPLE_BIAS
  {
    b - SAMPLE_BIAS
  }
}
