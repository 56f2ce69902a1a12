/** The decision side of `processBeat`: the energy of the buffered chunk,
    whether it is a beat, and the two values kept across ticks. Energy is
    exact: the source's `float` sum is exact here (every partial sum is an
    integer of at most 2^24) and only its final division would round.
    Dividing by a length of zero gives NaN in IEEE arithmetic, and every
    comparison with NaN is false; `Energy` keeps that case. */
module Beat {
  import opened Audio

  datatype Energy = Finite(value: real) | NaN

  /** `beatThreshold`: a beat needs this many times the previous energy. */
  const BEAT_THRESHOLD := 1.5

  /** `beatCooldown`: milliseconds that must pass between two beats. */
  const BEAT_COOLDOWN_MS := 150

  /** The largest squared centred sample, `(0 - 128)^2`. */
  const MAX_SQUARE := 16384

  /** The sum of the squared centred samples, accumulated front to back as
      the loop in `processBeat` does. */
  function SumSquares(s: seq<byte>): (r: int)
    ensures 0 <= r <= |s| * MAX_SQUARE
  {
    if s == [] then 0
    else
      var c := Centered(s[|s| - 1]);
      SquareBound(c);
      SumSquares(s[..|s| - 1]) + c * c
  }

  lemma SquareBound(c: int)
    requires -SAMPLE_BIAS <= c < SAMPLE_BIAS
    ensures 0 <= c * c <= MAX_SQUARE
  {
    var a := if c < 0 then -c else c;
    assert c * c == a * a;
    assert a * a <= 128 * a;
    assert 128 * a <= 128 * 128;
  }

  /** Silence (every byte at the bias) has no energy, and the sum is zero
      only for silence. */
  lemma {:induction false} SumSquaresZero(s: seq<byte>)
    ensures SumSquares(s) == 0 <==> forall k :: 0 <= k < |s| ==> s[k] == SAMPLE_BIAS
  {
    if s != [] {
      var init := s[..|s| - 1];
      SumSquaresZero(init);
      var c := Centered(s[|s| - 1]);
      assert c * c >= 0;
      assert c * c == 0 <==> c == 0;
      assert forall k :: 0 <= k < |init| ==> init[k] == s[k];
    }
  }

  /** `energy / audioBufferLen`: the mean squared centred sample. */
  function EnergyOf(chunk: seq<byte>): (e: Energy)
    ensures e.NaN? <==> chunk == []
    ensures e.Finite? ==> 0.0 <= e.value <= MAX_SQUARE as real
  {
    if chunk == [] then NaN
    else
      var n := |chunk| as real;
      var sum := SumSquares(chunk) as real;
      assert sum / n <= MAX_SQUARE as real by {
        assert sum <= n * MAX_SQUARE as real;
      }
      Finite(sum / n)
  }

  /** The beat test of `processBeat` at time `now` (its `millis()`). */
  predicate Fires(e: Energy, lastEnergy: Energy, now: int, lastBeatTime: int) {
    && e.Finite? && lastEnergy.Finite?
    && e.value > BEAT_THRESHOLD * lastEnergy.value
    && now - lastBeatTime > BEAT_COOLDOWN_MS
  }

  /** `lastEnergy` and `lastBeatTime`, kept from tick to tick. */
  datatype BeatState = BeatState(lastEnergy: Energy, lastBeatTime: int)

  /** Both start at zero. */
  const INITIAL := BeatState(Finite(0.0), 0)

  /** The state after one analysed chunk of energy `e`: the energy is
      always remembered, the beat time only when the chunk is a beat. */
  function NextBeatState(s: BeatState, e: Energy, now: int): (r: BeatState)
    ensures r.lastEnergy == e
    ensures r.lastBeatTime != s.lastBeatTime <==> Fires(e, s.lastEnergy, now, s.lastBeatTime)
    ensures r.lastBeatTime != s.lastBeatTime ==> r.lastBeatTime == now
  {
    BeatState(e, if Fires(e, s.lastEnergy, now, s.lastBeatTime) then now else s.lastBeatTime)
  }

  /** The first chunk after boot is a beat whenever it is not silent and
      more than the cooldown has passed since boot: the remembered energy
      starts at zero. */
  lemma FirstChunkBeats(chunk: seq<byte>, now: int)
    requires exists k :: 0 <= k < |chunk| && chunk[k] != SAMPLE_BIAS
    requires now > BEAT_COOLDOWN_MS
    ensures Fires(EnergyOf(chunk), INITIAL.lastEnergy, now, INITIAL.lastBeatTime)
    ensures NextBeatState(INITIAL, EnergyOf(chunk), now) == BeatState(EnergyOf(chunk), now)
  {
    SumSquaresZero(chunk);
    var n := |chunk| as real;
    var sum := SumSquares(chunk) as real;
    assert sum > 0.0;
    assert sum / n > 0.0;
  }

  /** A chunk no louder than one and a half times the previous one is never
      a beat; in particular two chunks of equal energy in a row give at
      most one beat. */
  lemma NoBeatWithoutRise(e: real, last: real, now: int, lastBeatTime: int)
    requires 0.0 <= e <= BEAT_THRESHOLD * last
    ensures !Fires(Finite(e), Finite(last), now, lastBeatTime)
  {
  }

  lemma EqualEnergyNoSecondBeat(chunk: seq<byte>, s: BeatState, now1: int, now2: int)
    ensures !Fires(EnergyOf(chunk), NextBeatState(s, EnergyOf(chunk), now1).lastEnergy, now2,
                   NextBeatState(s, EnergyOf(chunk), now1).lastBeatTime)
  {
  }

  /** Silence is never a beat. */
  lemma SilenceNeverBeats(chunk: seq<byte>, s: BeatState, now: int)
    requires forall k :: 0 <= k < |chunk| ==> chunk[k] == SAMPLE_BIAS
    requires s.lastEnergy.Finite? ==> s.lastEnergy.value >= 0.0
    ensures !Fires(EnergyOf(chunk), s.lastEnergy, now, s.lastBeatTime)
  {
    SumSquaresZero(chunk);
  }

  /** An empty delivery leaves NaN as the remembered energy, so the chunk
      after it cannot be a beat either, whatever its energy. */
  lemma EmptyChunkSuppressesNextBeat(s: BeatState, now1: int, e: Energy, now2: int)
    ensures !Fires(EnergyOf([]), s.lastEnergy, now1, s.lastBeatTime)
    ensures !Fires(e, NextBeatState(s, EnergyOf([]), now1).lastEnergy, now2,
                   NextBeatState(s, EnergyOf([]), now1).lastBeatTime)
  {
  }
}
