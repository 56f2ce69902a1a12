/** The controller's global state and the routines that change it step by
    step: `setup`'s configuration load, `saveConfig`/`loadConfig`,
    `read_data_stream`, `processFFT`, `processBeat`, `handleTouch` and one
    pass of `loop`. Each routine is proved against the pure definitions of
    the other modules. */
module Firmware {
  import opened Arduino
  import opened Prefs
  import opened Config
  import opened Touch
  import opened Menu
  import opened Audio
  import opened Leds
  import opened Spectrum
  import opened Beat

  /** What one rendering pass writes into a configured LED. */
  datatype Effect =
    | ShowSpectrum(mags: Magnitudes)
    | Flash(hue: (int, int) -> byte)
    | Fade

  /** The new colour of LED `j` of strip `i`, a strip of `L` LEDs, whose
      colour was `p`: the spectrum colour, a full-brightness colour of the
      hue drawn for it, or the old colour faded. */
  function Render(e: Effect, i: int, j: int, L: int, p: Pixel): (r: Pixel)
    requires 0 <= j < L
    ensures e.Fade? ==> r == FadedBy(p, FADE_AMOUNT)
    ensures e.Flash? ==> r.Hsv? && r.sat == FULL && r.val == FULL && r.hue == e.hue(i, j)
    ensures e.ShowSpectrum? ==> r == SpectrumPixel(e.mags, L, j)
  {
    match e
    case ShowSpectrum(mags) => SpectrumPixel(mags, L, j)
    case Flash(hue) => Hsv(hue(i, j), FULL, FULL)
    case Fade => FadedBy(p, FADE_AMOUNT)
  }

  /** Which analyzer one pass of `loop` runs: only on the visualizer
      screen, and only for one of the two known mode names. */
  datatype Analyzer = SpectralAnalyzer | BeatAnalyzer

  function Dispatch(screen: Screen, mode: string): (r: Option<Analyzer>)
    ensures r == Some(SpectralAnalyzer) <==> screen == Visualizer && mode == "fft"
    ensures r == Some(BeatAnalyzer) <==> screen == Visualizer && mode == "beat"
  {
    if screen != Visualizer then None
    else if mode == "fft" then Some(SpectralAnalyzer)
    else if mode == "beat" then Some(BeatAnalyzer)
    else None
  }

  class Controller {
    // configuration and screens
    var stripCount: int
    const ledsPerStrip: array<int>
    var audioMode: string
    var currentScreen: Screen
    var currentStripIndex: int
    var splashStartTime: int
    var prefs: Store
    ghost var saves: nat

    // audio ingest slot
    const audioBuffer: array<byte>
    var audioBufferLen: int
    var newAudioData: bool

    // analysis and output
    const vReal: array<real>
    const vImag: array<real>
    const leds: array2<Pixel>
    var lastEnergy: Energy
    var lastBeatTime: int

    /** The array sizes of the globals, the topology bounds, the per-flow
        strip index, a buffered length within capacity and a remembered
        energy that is never negative. */
    ghost predicate Valid()
      reads this, ledsPerStrip
    {
      && ledsPerStrip.Length == MAX_STRIPS
      && audioBuffer.Length == AUDIO_CAPACITY
      && vReal.Length == SAMPLES && vImag.Length == SAMPLES && vReal != vImag
      && leds.Length0 == MAX_STRIPS && leds.Length1 == MAX_LEDS
      && Menu.Valid(Panel())
      && 0 <= audioBufferLen <= AUDIO_CAPACITY
      && (lastEnergy.Finite? ==> lastEnergy.value >= 0.0)
    }

    ghost function CurrentConfig(): Config
      reads this`stripCount, this`audioMode, ledsPerStrip
    {
      Config(stripCount, ledsPerStrip[..], audioMode)
    }

    /** The state the configuration screens work on. */
    ghost function Panel(): Panel
      reads this`currentScreen, this`currentStripIndex, this`stripCount, this`audioMode,
            this`prefs, this`saves, ledsPerStrip
    {
      Menu.Panel(currentScreen, currentStripIndex, CurrentConfig(), prefs, saves)
    }

    ghost function Beats(): BeatState
      reads this`lastEnergy, this`lastBeatTime
    {
      BeatState(lastEnergy, lastBeatTime)
    }

    /** The LEDs of the configured strips. */
    ghost predicate Lit(i: int, j: int)
      reads this, ledsPerStrip
      requires ledsPerStrip.Length == MAX_STRIPS
    {
      0 <= i < stripCount && i < MAX_STRIPS && 0 <= j < ledsPerStrip[i]
    }

    /** Every LED of a configured strip went through `e`; every other cell
        of the buffer kept its colour. */
    twostate predicate PaintedWith(e: Effect)
      reads this, ledsPerStrip, leds
      requires ledsPerStrip.Length == MAX_STRIPS && leds.Length0 == MAX_STRIPS && leds.Length1 == MAX_LEDS
    {
      forall i, j :: 0 <= i < MAX_STRIPS && 0 <= j < MAX_LEDS ==>
        leds[i, j] == if Lit(i, j) then Render(e, i, j, ledsPerStrip[i], old(leds[i, j])) else old(leds[i, j])
    }

    /** The globals at their static initial values, with `store` the
        contents of the non-volatile store at power-up. */
    constructor PowerOn(store: Store)
      ensures Valid()
      ensures Panel() == Menu.Panel(Splash, 0, BOOT, store, 0)
      ensures splashStartTime == 0
      ensures audioBufferLen == 0 && !newAudioData
      ensures Beats() == INITIAL
      ensures forall i, j :: 0 <= i < MAX_STRIPS && 0 <= j < MAX_LEDS ==> leds[i, j] == Black
    {
      stripCount := 1;
      ledsPerStrip := new int[MAX_STRIPS](_ => 30);
      audioMode := "fft";
      currentScreen := Splash;
      currentStripIndex := 0;
      prefs := store;
      saves := 0;
      audioBuffer := new byte[AUDIO_CAPACITY](_ => 0);
      audioBufferLen := 0;
      newAudioData := false;
      vReal := new real[SAMPLES](_ => 0.0);
      vImag := new real[SAMPLES](_ => 0.0);
      leds := new Pixel[MAX_STRIPS, MAX_LEDS]((_, _) => Black);
      lastEnergy := Finite(0.0);
      lastBeatTime := 0;
      splashStartTime := 0;
      new;
      assert ledsPerStrip[..] == BOOT.leds;
    }

    /** `setup` without the hardware: `loadConfig`, then the splash screen
        drawn at `now`. */
    method Setup(now: int)
      requires Valid() && Loadable(prefs) && currentScreen == Splash && currentStripIndex == 0
      modifies this`stripCount, this`audioMode, ledsPerStrip, this`splashStartTime
      ensures Valid()
      ensures CurrentConfig() == LoadFrom(prefs, old(CurrentConfig()))
      ensures splashStartTime == now
    {
      LoadConfig();
      splashStartTime := now;
    }

    /** `saveConfig`: writes the strip count, the first `stripCount` LED
        counts and the mode. */
    method SaveConfig()
      requires ledsPerStrip.Length == MAX_STRIPS && CurrentConfig().Valid()
      modifies this`prefs, this`saves
      ensures prefs == SaveTo(old(prefs), CurrentConfig())
      ensures saves == old(saves) + 1
    {
      ghost var c := CurrentConfig();
      prefs := PutUInt(prefs, STRIP_COUNT_KEY, stripCount);
      ghost var afterCount := prefs;
      for i := 0 to stripCount
        invariant prefs == PutLeds(afterCount, c.leds, i)
        invariant saves == old(saves)
      {
        prefs := PutUInt(prefs, LedKey(i), ledsPerStrip[i]);
      }
      prefs := PutString(prefs, AUDIO_MODE_KEY, audioMode);
      saves := saves + 1;
    }

    /** `loadConfig`: reads the strip count, then that many LED counts, then
        the mode, each falling back to its default. */
    method LoadConfig()
      requires Valid() && Loadable(prefs) && currentScreen == Splash && currentStripIndex == 0
      modifies this`stripCount, this`audioMode, ledsPerStrip
      ensures Valid()
      ensures CurrentConfig() == LoadFrom(prefs, old(CurrentConfig()))
    {
      ghost var before := ledsPerStrip[..];
      stripCount := LoadedStripCount(prefs);
      for i := 0 to stripCount
        invariant ledsPerStrip[..] == LoadLeds(prefs, before, i)
        invariant stripCount == LoadedStripCount(prefs) && audioMode == old(audioMode)
      {
        ledsPerStrip[i] := LoadedLedCount(prefs, i);
      }
      audioMode := GetString(prefs, AUDIO_MODE_KEY, DEFAULT_AUDIO_MODE);
    }

    /** `read_data_stream`: keeps the first AUDIO_CAPACITY bytes of a
        delivery and marks the slot ready. Bytes past the kept length are
        not touched. */
    method ReadDataStream(data: seq<byte>)
      requires Valid()
      modifies this`audioBufferLen, this`newAudioData, audioBuffer
      ensures Valid()
      ensures audioBufferLen == |Chunk(data)|
      ensures audioBuffer[..audioBufferLen] == Chunk(data)
      ensures audioBuffer[audioBufferLen..] == old(audioBuffer[..])[audioBufferLen..]
      ensures newAudioData
    {
      var n := if |data| > AUDIO_CAPACITY then AUDIO_CAPACITY else |data|;
      for k := 0 to n
        invariant audioBuffer[..k] == data[..k]
        invariant audioBuffer[n..] == old(audioBuffer[n..])
      {
        audioBuffer[k] := data[k];
      }
      audioBufferLen := n;
      newAudioData := true;
    }

    /** The rendering loops shared by both analyzers: every LED of every
        configured strip goes through `e`. */
    method Paint(e: Effect)
      requires Valid()
      modifies leds
      ensures PaintedWith(e)
    {
      for i := 0 to stripCount
        invariant forall a, b :: 0 <= a < MAX_STRIPS && 0 <= b < MAX_LEDS ==>
          leds[a, b] == if a < i && Lit(a, b) then Render(e, a, b, ledsPerStrip[a], old(leds[a, b])) else old(leds[a, b])
      {
        for j := 0 to ledsPerStrip[i]
          invariant forall a, b :: 0 <= a < MAX_STRIPS && 0 <= b < MAX_LEDS ==>
            leds[a, b] == if (a < i || (a == i && b < j)) && Lit(a, b) then Render(e, a, b, ledsPerStrip[a], old(leds[a, b])) else old(leds[a, b])
        {
          leds[i, j] := Render(e, i, j, ledsPerStrip[i], leds[i, j]);
        }
      }
    }

    /** The sample loop of `processFFT`: `vReal` gets the centred even
        bytes with zero padding, `vImag` zeros. */
    method PrepareSamples()
      requires Valid()
      modifies vReal, vImag
      ensures vReal[..] == FftInput(audioBuffer[..], audioBufferLen)
      ensures vImag[..] == Zeros()
    {
      ghost var input := FftInput(audioBuffer[..], audioBufferLen);
      for i := 0 to SAMPLES
        invariant forall k :: 0 <= k < i ==> vReal[k] == input[k] && vImag[k] == 0.0
      {
        vReal[i] := if i * 2 < audioBufferLen then (audioBuffer[i * 2] - SAMPLE_BIAS) as real else 0.0;
        vImag[i] := 0.0;
      }
    }

    /** `processFFT`. With no new chunk it does nothing. Otherwise the
        library `fft` (windowing, transform, magnitudes) runs on the
        prepared input and leaves its magnitudes in `vReal`, every
        configured LED shows the level of its bin, and the chunk is
        consumed. */
    method ProcessFft(fft: (seq<real>, seq<real>) -> Magnitudes)
      requires Valid()
      modifies this`newAudioData, vReal, vImag, leds
      ensures Valid()
      ensures !newAudioData
      ensures !old(newAudioData) ==> unchanged(vReal, vImag, leds)
      ensures old(newAudioData) ==>
        && vReal[..] == fft(FftInput(audioBuffer[..], audioBufferLen), Zeros())
        && PaintedWith(ShowSpectrum(vReal[..]))
    {
      if !newAudioData {
        return;
      }
      ghost var input := FftInput(audioBuffer[..], audioBufferLen);
      PrepareSamples();
      assert vReal[..] == input && vImag[..] == Zeros();
      var mags := fft(vReal[..], vImag[..]);
      forall k | 0 <= k < SAMPLES {
        vReal[k] := mags[k];
      }
      assert vReal[..] == mags == fft(input, Zeros());
      Paint(ShowSpectrum(mags));
      assert vReal[..] == mags && input == FftInput(audioBuffer[..], audioBufferLen);
      newAudioData := false;
    }

    /** The energy loop of `processBeat`: the mean squared centred sample
        of the buffered chunk (NaN for an empty one). */
    method ChunkEnergy() returns (e: Energy)
      requires Valid()
      ensures e == EnergyOf(audioBuffer[..audioBufferLen])
    {
      var sum := 0;
      var i := 0;
      while i < audioBufferLen
        invariant 0 <= i <= audioBufferLen
        invariant sum == SumSquares(audioBuffer[..i])
      {
        var sample := audioBuffer[i] - SAMPLE_BIAS;
        sum := sum + sample * sample;
        assert audioBuffer[..i + 1][..i] == audioBuffer[..i];
        i := i + 1;
      }
      assert audioBuffer[..audioBufferLen][..i] == audioBuffer[..i];
      e := if audioBufferLen == 0 then NaN else Finite(sum as real / audioBufferLen as real);
    }

    /** `processBeat` at time `now`, `hue(i, j)` standing for the
        `random8()` drawn for LED `j` of strip `i`. With no new chunk it does
        nothing. Otherwise a beat flashes every configured LED and records
        the beat time; no beat fades them; the chunk's energy is remembered
        either way and the chunk is consumed. */
    method ProcessBeat(now: int, hue: (int, int) -> byte)
      requires Valid()
      modifies this`newAudioData, this`lastEnergy, this`lastBeatTime, leds
      ensures Valid()
      ensures !newAudioData
      ensures !old(newAudioData) ==> Beats() == old(Beats()) && unchanged(leds)
      ensures old(newAudioData) ==>
        var e := EnergyOf(audioBuffer[..audioBufferLen]);
        && Beats() == NextBeatState(old(Beats()), e, now)
        && PaintedWith(if Fires(e, old(lastEnergy), now, old(lastBeatTime)) then Flash(hue) else Fade)
    {
      if !newAudioData {
        return;
      }
      var energy := ChunkEnergy();
      if Fires(energy, lastEnergy, now, lastBeatTime) {
        Paint(Flash(hue));
        lastBeatTime := now;
      } else {
        Paint(Fade);
      }
      lastEnergy := energy;
      newAudioData := false;
    }

    /** `handleTouch` for the panel sample `t`: exactly the state machine's
        step, with the store written by `saveConfig` where it runs. */
    method HandleTouch(t: RawTouch)
      requires Valid()
      modifies this`currentScreen, this`currentStripIndex, this`stripCount, this`audioMode,
               this`prefs, this`saves, ledsPerStrip
      ensures Valid()
      ensures Panel() == OnTouch(old(Panel()), t)
    {
      if MIN_PRESSURE < t.z < MAX_PRESSURE {
        var y := Map(t.x, 120, 920, 0, 320);
        match currentScreen
        case MainMenu => TouchMainMenu(t, y);
        case AudioMode => TouchAudioMode(t, y);
        case LedConfigStrips => TouchStripCount(t);
        case LedConfigCount => TouchLedCount(t);
        case _ =>
      }
    }

    /** The main-menu branch of `handleTouch`. */
    method TouchMainMenu(t: RawTouch, y: int)
      requires Valid() && Pressed(t) && y == ScreenY(t) && currentScreen == MainMenu
      modifies this`currentScreen
      ensures Valid()
      ensures Panel() == OnTouch(old(Panel()), t)
    {
      if 50 <= y < 80 {
        currentScreen := AudioMode;
      } else if 100 <= y < 130 {
        currentScreen := LedConfigStrips;
      } else if 150 <= y < 180 {
        currentScreen := Visualizer;
      }
    }

    /** The audio-mode branch of `handleTouch`. */
    method TouchAudioMode(t: RawTouch, y: int)
      requires Valid() && Pressed(t) && y == ScreenY(t) && currentScreen == AudioMode
      modifies this`currentScreen, this`audioMode, this`prefs, this`saves
      ensures Valid()
      ensures Panel() == OnTouch(old(Panel()), t)
    {
      ghost var p := Panel();
      ghost var mode := match AudioModeOption(y) case Some(m) => m case None => p.config.audioMode;
      if 100 <= y < 130 {
        audioMode := "fft";
      } else if 140 <= y < 170 {
        audioMode := "beat";
      }
      assert audioMode == mode;
      assert Panel() == p.(config := p.config.(audioMode := mode));
      SaveConfig();
      currentScreen := MainMenu;
    }

    /** The strip-count branch of `handleTouch`. */
    method TouchStripCount(t: RawTouch)
      requires Valid() && Pressed(t) && currentScreen == LedConfigStrips
      modifies this`currentScreen, this`currentStripIndex, this`stripCount
      ensures Valid()
      ensures Panel() == OnTouch(old(Panel()), t)
    {
      stripCount := Constrain(stripCount + 1, 1, MAX_STRIPS);
      currentStripIndex := 0;
      currentScreen := LedConfigCount;
    }

    /** The LED-count branch of `handleTouch`: the `uint16_t` addition, the
        reset past MAX_LEDS, the next strip, and the save after the last. */
    method TouchLedCount(t: RawTouch)
      requires Valid() && Pressed(t) && currentScreen == LedConfigCount
      modifies this`currentScreen, this`currentStripIndex, this`prefs, this`saves, ledsPerStrip
      ensures Valid()
      ensures Panel() == OnTouch(old(Panel()), t)
    {
      ghost var p := Panel();
      var i := currentStripIndex;
      ledsPerStrip[i] := (ledsPerStrip[i] + LED_STEP) % UINT16_LIMIT;
      if ledsPerStrip[i] > MAX_LEDS {
        ledsPerStrip[i] := LED_STEP;
      }
      assert ledsPerStrip[..] == p.config.leds[i := StepLedCount(p.config.leds[i])];
      currentStripIndex := i + 1;
      assert Panel() == p.(stripIndex := i + 1, config := p.config.(leds := ledsPerStrip[..]));
      if currentStripIndex >= stripCount {
        SaveConfig();
        currentScreen := MainMenu;
      }
    }

    /** The analyzer half of `loop`: on the visualizer screen, the analyzer
        the mode names runs; otherwise nothing happens. */
    method Analyze(now: int, fft: (seq<real>, seq<real>) -> Magnitudes, hue: (int, int) -> byte)
      requires Valid()
      modifies this`newAudioData, this`lastEnergy, this`lastBeatTime, vReal, vImag, leds
      ensures Valid()
      ensures Dispatch(currentScreen, audioMode) == None ==>
        newAudioData == old(newAudioData) && Beats() == old(Beats()) && unchanged(vReal, vImag, leds)
      ensures Dispatch(currentScreen, audioMode) == Some(SpectralAnalyzer) ==>
        && !newAudioData && Beats() == old(Beats())
        && (old(newAudioData) ==>
              && vReal[..] == fft(FftInput(audioBuffer[..], audioBufferLen), Zeros())
              && PaintedWith(ShowSpectrum(vReal[..])))
        && (!old(newAudioData) ==> unchanged(vReal, vImag, leds))
      ensures Dispatch(currentScreen, audioMode) == Some(BeatAnalyzer) ==>
        && !newAudioData && unchanged(vReal, vImag)
        && Beats() == (if old(newAudioData)
                       then NextBeatState(old(Beats()), EnergyOf(audioBuffer[..audioBufferLen]), now)
                       else old(Beats()))
        && (!old(newAudioData) ==> unchanged(leds))
        && (old(newAudioData) ==>
              var e := EnergyOf(audioBuffer[..audioBufferLen]);
              PaintedWith(if Fires(e, old(lastEnergy), now, old(lastBeatTime)) then Flash(hue) else Fade))
    {
      if currentScreen == Visualizer {
        if audioMode == "fft" {
          ProcessFft(fft);
        } else if audioMode == "beat" {
          ProcessBeat(now, hue);
        }
      }
    }

    /** The screen half of `loop`: leave the splash screen once its time is
        up, then handle the touch. */
    method Step(now: int, t: RawTouch)
      requires Valid()
      modifies this`currentScreen, this`currentStripIndex, this`stripCount, this`audioMode,
               this`prefs, this`saves, ledsPerStrip
      ensures Valid()
      ensures Panel() == OnTouch(AfterSplash(old(Panel()), now, splashStartTime), t)
    {
      if currentScreen == Splash && now - splashStartTime > SPLASH_MS {
        currentScreen := MainMenu;
      }
      HandleTouch(t);
    }

    /** One pass of `loop` at time `now` with panel sample `t`. */
    method Loop(now: int, t: RawTouch, fft: (seq<real>, seq<real>) -> Magnitudes, hue: (int, int) -> byte)
      requires Valid()
      modifies this`currentScreen, this`currentStripIndex, this`stripCount, this`audioMode,
               this`prefs, this`saves, ledsPerStrip,
               this`newAudioData, this`lastEnergy, this`lastBeatTime, vReal, vImag, leds
      ensures Valid()
      ensures Panel() == OnTouch(AfterSplash(old(Panel()), now, splashStartTime), t)
      ensures Dispatch(currentScreen, audioMode) == None ==>
        newAudioData == old(newAudioData) && Beats() == old(Beats()) && unchanged(vReal, vImag, leds)
      ensures Dispatch(currentScreen, audioMode) == Some(SpectralAnalyzer) ==>
        && !newAudioData && Beats() == old(Beats())
        && (old(newAudioData) ==>
              && vReal[..] == fft(FftInput(audioBuffer[..], audioBufferLen), Zeros())
              && PaintedWith(ShowSpectrum(vReal[..])))
        && (!old(newAudioData) ==> unchanged(vReal, vImag, leds))
      ensures Dispatch(currentScreen, audioMode) == Some(BeatAnalyzer) ==>
        && !newAudioData && unchanged(vReal, vImag)
        && Beats() == (if old(newAudioData)
                       then NextBeatState(old(Beats()), EnergyOf(audioBuffer[..audioBufferLen]), now)
                       else old(Beats()))
        && (!old(newAudioData) ==> unchanged(leds))
        && (old(newAudioData) ==>
              var e := EnergyOf(audioBuffer[..audioBufferLen]);
              PaintedWith(if Fires(e, old(lastEnergy), now, old(lastBeatTime)) then Flash(hue) else Fade))
    {
      Step(now, t);
      ghost var after := Panel();
      Analyze(now, fft, hue);
      assert Panel() == after;
    }
  }
}
