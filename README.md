# ESP32 RGB controller — verified model

This project models the control core of an ESP32 sketch. The sketch drives up to four
addressable LED strips from Bluetooth audio and is configured from a resistive
touch screen. The model covers:

- the configuration screens as a finite-state machine (`handleTouch` and the splash
  timeout at the top of `loop`), including the pressure window, the Arduino `map`
  remap of raw panel coordinates with C truncating division, and the fixed screen bands;
- persistence of the topology and audio mode (`saveConfig`, `loadConfig`) against an
  abstract key/value store with per-kind defaults;
- the single-slot audio ingest (`read_data_stream`) and its ready flag, which both
  analyzers consume and clear;
- the integer side of the spectral renderer (`processFFT`): zero-padded, centred
  even-byte sample extraction, the LED-to-bin mapping `map(j, 0, L, 1, 256)` and the
  clamped level;
- the beat detector (`processBeat`): mean energy with exact arithmetic, the threshold
  and cooldown test, and the state kept across ticks.

The pure parts live in the modules `Arduino`, `Prefs`, `Config`, `Touch`, `Menu`,
`Audio`, `Leds`, `Spectrum` and `Beat`. The globals of the sketch become the fields
of the class `Firmware.Controller`:

- the LED counts, the audio buffer, `vReal`, `vImag` and the LED colour buffer are
  arrays;
- the store is a `map`.

Each routine of the sketch that updates them is a method. Where the sketch has a loop,
the method keeps that loop and carries its invariants. Each method is proved against
the pure definitions. For example, `HandleTouch` leaves
exactly `Menu.OnTouch(old state, touch)`, and `SaveConfig` leaves exactly
`Config.SaveTo(old store, configuration)`.

Behaviour of the sketch worth knowing:

- Both analyzers recolour only the strips below `stripCount`, and on each of them
  only LEDs `0 .. ledsPerStrip[i]-1`. Every other cell of the LED buffer keeps its colour.
- The FFT input takes every other byte of the chunk (`audioBuffer[2i]`). Bytes at
  odd positions are never read.
- The splash screen gives way only once strictly more than 2000 ms have passed.
- An empty audio delivery makes the energy `0/0`, which is NaN in IEEE arithmetic.
  NaN compares false with everything, so that chunk is never a beat. It also stays
  as `lastEnergy`, which suppresses the beat on the following chunk.
- The strip-count screen adds one strip per tap, up to four. No touch ever lowers
  the strip count.
- `loadConfig` accepts a stored strip count of 0. The sketch then drives no strip,
  and the first tap on the strip-count screen raises the count to 1.

## Model

| member | source | states |
|---|---|---|
| Arduino.TruncDiv | esp_32_rgb_controller.cpp:238-239 | C division: the remainder is smaller than the divisor in magnitude and has the dividend's sign (or is zero); for a positive divisor the quotient is the floor quotient of the magnitude, negated for a negative dividend |
| Arduino.TruncDivMonotone | esp_32_rgb_controller.cpp:182 | truncating division by a positive divisor is monotone in the dividend |
| Arduino.Map | esp_32_rgb_controller.cpp:182 | over rising ranges, an input inside the input range lands inside the output range |
| Arduino.MapLowEnd | esp_32_rgb_controller.cpp:182 | `map` sends the low end of the input range to the low end of the output range |
| Arduino.MapMonotone | esp_32_rgb_controller.cpp:182 | `map` over rising ranges is monotone in its input |
| Arduino.Constrain | esp_32_rgb_controller.cpp:183 | `constrain` lands in `[lo, hi]` and leaves values already inside unchanged |
| Arduino.ConstrainIsNearest | esp_32_rgb_controller.cpp:272 | `constrain` returns the point of `[lo, hi]` nearest to its argument |
| Prefs.PutUInt | esp_32_rgb_controller.cpp:136 | after `putUInt` a `getUInt` of the key returns the value, whatever the default |
| Prefs.PutString | esp_32_rgb_controller.cpp:141 | after `putString` a `getString` of the key returns the value, whatever the default |
| Prefs.PutUIntFrame | esp_32_rgb_controller.cpp:139 | `putUInt` leaves every other key's value alone, and the key set grows by that key only |
| Prefs.PutStringFrame | esp_32_rgb_controller.cpp:141 | the same for `putString` |
| Config.LedKey | esp_32_rgb_controller.cpp:139 | the key `"leds_" + String(i)` is "leds_" followed by the digit of `i`, and differs from the strip-count and mode keys |
| Config.LedKeyInjective | esp_32_rgb_controller.cpp:139 | different strips (below 10) get different keys |
| Config.PutLeds | esp_32_rgb_controller.cpp:137-140 | the strip loop of `saveConfig`: strip `k`'s count is put under its key for each `k` below the count, in order |
| Config.PutLedsKeys | esp_32_rgb_controller.cpp:137-140 | the strip loop adds exactly the keys of strips `0 .. n-1` to the store |
| Config.PutLedsLookup | esp_32_rgb_controller.cpp:137-140 | after the save loop each strip key below the count holds that strip's LED count, and every other key is untouched |
| Config.SaveTo | esp_32_rgb_controller.cpp:133-143 | after `saveConfig` the strip-count key holds the strip count and the mode key holds the mode |
| Config.SaveKeepsOtherKeys | esp_32_rgb_controller.cpp:133-143 | `saveConfig` leaves every key it does not write as it was |
| Config.LoadedStripCount | esp_32_rgb_controller.cpp:148 | the loaded strip count is a byte: the stored number modulo 256 when the key holds a number, 1 otherwise |
| Config.LoadedLedCount | esp_32_rgb_controller.cpp:151 | a loaded LED count is 16 bits wide: the stored number modulo 65536 when the key holds a number, 30 otherwise |
| Config.LoadLeds | esp_32_rgb_controller.cpp:149-152 | after loading `n` strips, slot `k < n` holds strip `k`'s loaded count and every later slot keeps its value |
| Config.LoadFrom | esp_32_rgb_controller.cpp:145-155 | from a loadable store, loading keeps the configuration within its topology bounds |
| Config.LoadAfterSave | esp_32_rgb_controller.cpp:133-155 | load after save restores the strip count, the first `stripCount` LED counts and the mode; loading into the saved configuration gives it back unchanged |
| Config.LoadDefaults | esp_32_rgb_controller.cpp:148-153 | absent keys load as 1 strip, 30 LEDs and "fft" |
| Touch.Pressed | esp_32_rgb_controller.cpp:236 | a sample counts as a touch only for a pressure strictly between 200 and 1000 |
| Touch.ScreenY | esp_32_rgb_controller.cpp:239 | a raw x in `[120, 920]` remaps to a y in `[0, 320]` |
| Touch.MainMenuItem | esp_32_rgb_controller.cpp:243-258 | each menu item is chosen exactly when y is in its band `[50,80)`, `[100,130)` or `[150,180)`; no item is chosen outside all three |
| Touch.AudioModeOption | esp_32_rgb_controller.cpp:262-265 | "fft" exactly for y in `[100,130)`, "beat" exactly for `[140,170)`, none otherwise |
| Touch.ScreenYBelowRange | esp_32_rgb_controller.cpp:239 | a raw x below 120 remaps to a y of at most 0 (C truncation of a negative numerator) |
| Touch.ScreenYAtLeast | esp_32_rgb_controller.cpp:239 | for any b > 0, the remapped y is at least b iff `2(x-120) >= 5b` |
| Touch.MainMenuRawBands | esp_32_rgb_controller.cpp:239-258 | the raw x bands behind the three menu lines are `[245,320)`, `[370,445)` and `[495,570)` |
| Touch.AudioModeRawBands | esp_32_rgb_controller.cpp:239-265 | the raw x bands behind "fft" and "beat" are `[370,445)` and `[470,545)` |
| Menu.StepLedCount | esp_32_rgb_controller.cpp:279-281 | adding 10 to a count of at most 150 gives a result in `[10,150]`: old+10 when that fits, 10 when it passes 150 |
| Menu.Save | esp_32_rgb_controller.cpp:266 | `saveConfig` replaces the store by `SaveTo` of the current configuration and counts one save; screen, strip index and configuration stay as they were |
| Menu.AfterSplash | esp_32_rgb_controller.cpp:319-323 | the splash screen is left for the main menu iff more than 2000 ms have passed; nothing else changes |
| Menu.OnTouch | esp_32_rgb_controller.cpp:236-297 | one touch keeps the configuration within its bounds and the strip index valid for the screen |
| Menu.LightTouchIgnored | esp_32_rgb_controller.cpp:236 | a pressure outside `(200, 1000)` changes nothing |
| Menu.OnlyScreenYMatters | esp_32_rgb_controller.cpp:236-239 | two samples that agree on being pressed and on the remapped y act alike: the remapped x is never consulted |
| Menu.MainMenuTouch | esp_32_rgb_controller.cpp:243-259 | on the main menu, each band opens its screen and changes nothing else; any other y changes nothing |
| Menu.AudioModeTouch | esp_32_rgb_controller.cpp:261-269 | on the audio-mode screen the mode becomes the option tapped (or stays); exactly one save of the new configuration; back to the main menu; topology untouched |
| Menu.StripCountTouch | esp_32_rgb_controller.cpp:271-276 | on the strip-count screen the count becomes `min(count+1, 4)`, the index 0, and the screen the LED-count screen; nothing else changes |
| Menu.LedCountTouch | esp_32_rgb_controller.cpp:278-293 | on the LED-count screen only the current strip's count is stepped and the index advances; the save and the return to the main menu happen exactly when that was the last strip |
| Menu.SavesOnlyAtCheckpoints | esp_32_rgb_controller.cpp:266-285 | the store changes only at the two checkpoints, at most once per touch, and then holds the configuration after the touch |
| Menu.StripCountNeverDecreases | esp_32_rgb_controller.cpp:272 | over any touch sequence the strip count never falls and never exceeds 4 |
| Menu.VisualizerIsTerminal | esp_32_rgb_controller.cpp:241-297 | no touch sequence and no splash timeout leaves the visualizer screen |
| Menu.SplashIgnoresTouches | esp_32_rgb_controller.cpp:241-297 | touches on the splash screen change nothing |
| Menu.LedCountFlowPrefix | esp_32_rgb_controller.cpp:278-292 | part way through the LED-count flow the touched strips are stepped and nothing is saved |
| Menu.ConfigureLedsFlow | esp_32_rgb_controller.cpp:271-293 | the full "Configure LEDs" flow with `1 + n` taps leaves `n` strips with the first `n` counts stepped, returns to the main menu and saves exactly once |
| Menu.Run | esp_32_rgb_controller.cpp:317-324 | any sequence of touches keeps the configuration within its bounds and the strip index valid |
| Menu.RunAppend | esp_32_rgb_controller.cpp:230-299 | handling `ts + [t]` is handling `ts` and then `t` |
| Menu.SelectBeatMode | esp_32_rgb_controller.cpp:243-269 | from the main menu, a tap on "Audio Mode" and then on "Beat" selects "beat", returns to the main menu and saves once |
| Audio.Chunk | esp_32_rgb_controller.cpp:159-160 | a delivery keeps a prefix of at most 1024 bytes: all of it when it fits, exactly 1024 bytes otherwise |
| Audio.Centered | esp_32_rgb_controller.cpp:171 | a centred byte lies in `[-128, 128)` |
| Spectrum.FftInput | esp_32_rgb_controller.cpp:169-173 | the FFT input has 512 samples, each in `[-128, 128)` |
| Spectrum.OnlyEvenBytesRead | esp_32_rgb_controller.cpp:171 | buffers that agree on their delivered even bytes give the same input |
| Spectrum.InputOfDelivery | esp_32_rgb_controller.cpp:157-173 | after a delivery, sample `i` is the centred byte `2i` of the data while kept, then zero; deliveries of 1023 bytes or more leave no padding |
| Spectrum.Bin | esp_32_rgb_controller.cpp:182 | an LED position `j` in `[0, L]` maps to a bin in `[1, 256]` |
| Spectrum.BinInRange | esp_32_rgb_controller.cpp:182 | LED `j < L` reads bin `j*255/L + 1`, which lies in `[1, 256)` |
| Spectrum.BinMonotone | esp_32_rgb_controller.cpp:182 | the first LED reads bin 1 and bins never decrease along a strip |
| Spectrum.TruncReal | esp_32_rgb_controller.cpp:183 | the `(int)` cast truncates toward zero |
| Spectrum.TruncRealMonotone | esp_32_rgb_controller.cpp:183 | the cast is monotone |
| Spectrum.Level | esp_32_rgb_controller.cpp:183 | a level is in `[0, 255]` |
| Spectrum.LevelMonotone | esp_32_rgb_controller.cpp:183 | a stronger bin is never dimmer |
| Spectrum.LevelOfMagnitude | esp_32_rgb_controller.cpp:183 | below 2560 the level is a tenth of the magnitude rounded down, from 2560 on it is 255, below 10 it is 0 |
| Spectrum.SpectrumPixel | esp_32_rgb_controller.cpp:182-184 | a spectrum LED has full saturation and equal hue and value in `[0, 255]` |
| Beat.SumSquares | esp_32_rgb_controller.cpp:196-200 | the energy sum is between 0 and `len * 16384` |
| Beat.SumSquaresZero | esp_32_rgb_controller.cpp:196-200 | the sum is zero iff every byte equals the bias |
| Beat.EnergyOf | esp_32_rgb_controller.cpp:195-201 | the energy is NaN iff the chunk is empty, and otherwise lies in `[0, 16384]` |
| Beat.Fires | esp_32_rgb_controller.cpp:203 | a chunk is a beat iff both energies are numbers (a NaN compares false), the energy exceeds 1.5 times the previous one, and strictly more than 150 ms have passed since the last beat |
| Beat.NextBeatState | esp_32_rgb_controller.cpp:203-226 | the chunk's energy is always remembered; the beat time changes exactly when the chunk is a beat, and then becomes `now` |
| Beat.FirstChunkBeats | esp_32_rgb_controller.cpp:46-48 | from the initial state, any non-silent first chunk more than 150 ms after boot is a beat and records its time |
| Beat.NoBeatWithoutRise | esp_32_rgb_controller.cpp:203 | an energy at most 1.5 times the previous one is never a beat |
| Beat.EqualEnergyNoSecondBeat | esp_32_rgb_controller.cpp:203-226 | the second of two equal-energy chunks in a row is never a beat |
| Beat.SilenceNeverBeats | esp_32_rgb_controller.cpp:195-203 | a silent chunk is never a beat |
| Beat.EmptyChunkSuppressesNextBeat | esp_32_rgb_controller.cpp:201-226 | an empty chunk is not a beat, and neither is the chunk after it |
| Firmware.Render | esp_32_rgb_controller.cpp:184-221 | a faded LED is its old colour faded by 20; a flashed LED has the hue drawn for it at full saturation and value; a spectrum LED takes its bin's colour |
| Firmware.Dispatch | esp_32_rgb_controller.cpp:325-335 | the spectral analyzer runs iff the visualizer is up with mode "fft"; the beat analyzer iff it is up with mode "beat" |
| Firmware.Controller.PowerOn | esp_32_rgb_controller.cpp:30-62 | the globals start at their initial values: one strip, 30 LEDs per slot, "fft", the splash screen, an empty slot, zero beat state, every LED black |
| Firmware.Controller.Setup | esp_32_rgb_controller.cpp:301-308 | the configuration becomes what `loadConfig` reads over the current one, within bounds; the splash time is `now` |
| Firmware.Controller.SaveConfig | esp_32_rgb_controller.cpp:133-143 | the store becomes `SaveTo` of the current configuration; one more save |
| Firmware.Controller.LoadConfig | esp_32_rgb_controller.cpp:145-155 | the configuration becomes `LoadFrom` of the store over the old configuration, within bounds |
| Firmware.Controller.ReadDataStream | esp_32_rgb_controller.cpp:157-162 | the buffer starts with the kept chunk; bytes past it are untouched; the length is the chunk's; the flag is set |
| Firmware.Controller.Paint | esp_32_rgb_controller.cpp:178-185 | every LED of a configured strip goes through the effect; every other cell keeps its colour |
| Firmware.Controller.PrepareSamples | esp_32_rgb_controller.cpp:169-173 | `vReal` holds the FFT input of the buffer and `vImag` zeros |
| Firmware.Controller.ProcessFft | esp_32_rgb_controller.cpp:164-189 | with no new chunk nothing changes; otherwise `vReal` holds the magnitudes of the prepared input and every configured LED shows its bin; the flag ends clear |
| Firmware.Controller.ChunkEnergy | esp_32_rgb_controller.cpp:195-201 | the loop computes `EnergyOf` of the buffered chunk |
| Firmware.Controller.ProcessBeat | esp_32_rgb_controller.cpp:191-228 | with no new chunk nothing changes; otherwise the beat state steps by `NextBeatState`, and the configured LEDs flash on a beat or fade otherwise; the flag ends clear |
| Firmware.Controller.HandleTouch | esp_32_rgb_controller.cpp:230-299 | the state after a touch is `OnTouch` of the state before |
| Firmware.Controller.TouchMainMenu | esp_32_rgb_controller.cpp:243-259 | the main-menu branch agrees with `OnTouch` |
| Firmware.Controller.TouchAudioMode | esp_32_rgb_controller.cpp:261-269 | the audio-mode branch agrees with `OnTouch` |
| Firmware.Controller.TouchStripCount | esp_32_rgb_controller.cpp:271-276 | the strip-count branch agrees with `OnTouch` |
| Firmware.Controller.TouchLedCount | esp_32_rgb_controller.cpp:278-293 | the LED-count branch, including the `uint16_t` addition, agrees with `OnTouch` |
| Firmware.Controller.Step | esp_32_rgb_controller.cpp:319-324 | the splash timeout and then the touch: the state becomes `OnTouch(AfterSplash(state))` |
| Firmware.Controller.Analyze | esp_32_rgb_controller.cpp:325-335 | the analyzer `Dispatch` names runs with its full effect: on a new chunk, the spectral one leaves the magnitudes in `vReal` and paints every configured LED with its bin, and the beat one steps the beat state and flashes or fades the configured LEDs; with no new chunk neither changes `vReal`, `vImag` or the LEDs; the flag ends clear; without an analyzer the audio state and the LEDs are unchanged |
| Firmware.Controller.Loop | esp_32_rgb_controller.cpp:317-336 | one pass applies the splash timeout, then the touch, then the analyzer for the resulting screen and mode, with the same effect on `vReal`, the beat state and the LEDs as `Analyze` |

## Left out

- Drawing: the TFT calls of every `draw*` routine and of `setup` are output only. The panel sample is a method argument instead of `ts.getPoint()`.
- LED transmission: `FastLED.show` and `FastLED.addLeds` are not modelled. FastLED's HSV-to-RGB conversion and the arithmetic of `fadeToBlackBy` are not modelled either; a cell records how its colour was produced (`Leds.Pixel`).
- `random8()`: the hue of each flashed LED is an arbitrary byte given by a function argument `hue(i, j)`.
- Bluetooth: the A2DP sink and its callback registration are not modelled. `ReadDataStream` is called as an atomic method, so the race between the callback and the render loop is not captured.
- FFT numerics: windowing, transform and magnitude computation are one opaque function argument `fft`, whose result is written into `vReal`.
- Firmware.Controller.ProcessFft: states nothing about `vImag` after the library call. The model leaves it as prepared (zeros), while the library overwrites it.
- Floating point: the energy, the threshold test and `vReal[bin] / 10` use exact reals. Float rounding in the energy division and in `1.5 * lastEnergy` is not modelled. The energy sum itself is exact in `float`, since each partial sum is an integer of at most 2^24.
- Clock: `millis()` is an unbounded integer `now` without 32-bit wrap-around. Both `millis()` calls in one `processBeat` are taken to return the same `now`.
- Config.LoadFrom: requires a store whose strip count, narrowed to a byte, is at most 4, and whose loaded LED counts are at most 150 (`Config.Loadable`). The sketch does not validate them, and larger values would index `ledsPerStrip` and `leds` out of bounds. A stored count of 0 is accepted, as in the sketch.
- Firmware.Controller.LoadConfig: requires the same loadable store, and the splash screen with strip index 0, which is the state `setup` calls it in.
- Firmware.Controller.Setup: requires the same loadable store and the power-on screen state.
- Arduino.Map: requires a non-empty input range. The ESP32 core's guard for an empty range is never reached by the calls modelled here.
- The horizontal screen coordinate `map(p.y, 150, 900, 0, 240)` (line 238): the sketch computes it and never reads it, so the model leaves it out.
- Strip configuration beyond the first ten strips: `LedKey` is defined for single-digit strip numbers only. At most four strips exist.

