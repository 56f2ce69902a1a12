/** The configuration screens as a state machine: what one touch does on
    each screen (`handleTouch`) and the timed exit from the splash screen
    (the first lines of `loop`). Drawing is left out; persisting is the
    store update `saveConfig` makes, counted in `saves`. */
module Menu {
  import opened Arduino
  import opened Prefs
  import opened Config
  import opened Touch

  datatype Screen = Splash | MainMenu | AudioMode | LedConfigStrips | LedConfigCount | Visualizer

  /** How long the splash screen stays up, in milliseconds. */
  const SPLASH_MS := 2000

  /** One tap on the LED-count screen adds LED_STEP LEDs to the current strip. */
  const LED_STEP := 10

  /** What the screens read and write: the current screen, the strip being
      configured, the configuration, the store and how many times
      `saveConfig` has run. */
  datatype Panel = Panel(screen: Screen, stripIndex: int, config: Config, prefs: Store, saves: nat)

  /** The configuration stays within its bounds, and on the LED-count screen
      the strip being configured is one of the configured strips. */
  predicate Valid(p: Panel) {
    && p.config.Valid()
    && 0 <= p.stripIndex <= p.config.stripCount
    && (p.screen == LedConfigCount ==> p.stripIndex < p.config.stripCount)
  }

  /** `ledsPerStrip[i] += 10` on a `uint16_t`, then back to 10 past 150. */
  function StepLedCount(n: int): (r: int)
    requires 0 <= n < UINT16_LIMIT
    ensures n <= MAX_LEDS ==> LED_STEP <= r <= MAX_LEDS
    ensures n + LED_STEP <= MAX_LEDS ==> r == n + LED_STEP
    ensures n <= MAX_LEDS < n + LED_STEP ==> r == LED_STEP
  {
    var s := (n + LED_STEP) % UINT16_LIMIT;
    if s > 150 then LED_STEP else s
  }

  /** `saveConfig`. */
  function Save(p: Panel): (r: Panel)
    requires p.config.Valid()
    ensures r.prefs == SaveTo(p.prefs, p.config) && r.saves == p.saves + 1
    ensures r.screen == p.screen && r.stripIndex == p.stripIndex && r.config == p.config
  {
    p.(prefs := SaveTo(p.prefs, p.config), saves := p.saves + 1)
  }

  /** The splash screen gives way to the main menu once more than
      SPLASH_MS have passed since it was drawn. */
  function AfterSplash(p: Panel, now: int, splashStart: int): (r: Panel)
    ensures r.screen != Splash ==> r == p.(screen := if p.screen == Splash then MainMenu else p.screen)
    ensures r.screen == Splash <==> p.screen == Splash && now - splashStart <= SPLASH_MS
    ensures r.config == p.config && r.prefs == p.prefs && r.saves == p.saves && r.stripIndex == p.stripIndex
  {
    if p.screen == Splash && now - splashStart > SPLASH_MS then p.(screen := MainMenu) else p
  }

  /** One panel sample handled by `handleTouch`. */
  function OnTouch(p: Panel, t: RawTouch): (r: Panel)
    requires Valid(p)
    ensures Valid(r)
  {
    if !Pressed(t) then p
    else
      var y := ScreenY(t);
      match p.screen
      case MainMenu =>
        (match MainMenuItem(y)
         case Some(AudioModeItem) => p.(screen := AudioMode)
         case Some(ConfigureLedsItem) => p.(screen := LedConfigStrips)
         case Some(VisualizerItem) => p.(screen := Visualizer)
         case None => p)
      case AudioMode =>
        var mode := match AudioModeOption(y) case Some(m) => m case None => p.config.audioMode;
        Save(p.(config := p.config.(audioMode := mode))).(screen := MainMenu)
      case LedConfigStrips =>
        p.(screen := LedConfigCount, stripIndex := 0,
           config := p.config.(stripCount := Constrain(p.config.stripCount + 1, 1, MAX_STRIPS)))
      case LedConfigCount =>
        var i := p.stripIndex;
        var q := p.(stripIndex := i + 1,
                    config := p.config.(leds := p.config.leds[i := StepLedCount(p.config.leds[i])]));
        if i + 1 >= p.config.stripCount then Save(q).(screen := MainMenu) else q
      case _ => p
  }

  /** A sequence of panel samples, each handled in turn. */
  function Run(p: Panel, ts: seq<RawTouch>): (r: Panel)
    requires Valid(p)
    ensures Valid(r)
    decreases |ts|
  {
    if ts == [] then p else Run(OnTouch(p, ts[0]), ts[1..])
  }

  predicate AllPressed(ts: seq<RawTouch>) {
    forall k :: 0 <= k < |ts| ==> Pressed(ts[k])
  }

  /** The LED counts with the step applied to strips `lo .. hi-1`. */
  function Stepped(leds: seq<int>, lo: int, hi: int): (r: seq<int>)
    requires forall k :: 0 <= k < |leds| ==> 0 <= leds[k] <= MAX_LEDS
    ensures |r| == |leds|
    ensures forall k :: 0 <= k < |leds| ==> r[k] == if lo <= k < hi then StepLedCount(leds[k]) else leds[k]
  {
    seq(|leds|, k requires 0 <= k < |leds| => if lo <= k < hi then StepLedCount(leds[k]) else leds[k])
  }

  /** A sample outside the pressure window changes nothing, on any screen. */
  lemma LightTouchIgnored(p: Panel, t: RawTouch)
    requires Valid(p) && !Pressed(t)
    ensures OnTouch(p, t) == p
  {
  }

  /** Whether the panel is pressed and the vertical screen coordinate are
      all a touch contributes: two samples that agree on them act alike. */
  lemma OnlyScreenYMatters(p: Panel, t: RawTouch, u: RawTouch)
    requires Valid(p) && Pressed(t) == Pressed(u) && ScreenY(t) == ScreenY(u)
    ensures OnTouch(p, t) == OnTouch(p, u)
  {
  }

  /** On the main menu a touch in one of the three bands opens that item's
      screen and changes nothing else; any other touch changes nothing. */
  lemma MainMenuTouch(p: Panel, t: RawTouch)
    requires Valid(p) && p.screen == MainMenu && Pressed(t)
    ensures InBand(ScreenY(t), 50, 80) ==> OnTouch(p, t) == p.(screen := AudioMode)
    ensures InBand(ScreenY(t), 100, 130) ==> OnTouch(p, t) == p.(screen := LedConfigStrips)
    ensures InBand(ScreenY(t), 150, 180) ==> OnTouch(p, t) == p.(screen := Visualizer)
    ensures MainMenuItem(ScreenY(t)) == None ==> OnTouch(p, t) == p
  {
  }

  /** On the audio-mode screen every touch saves once and returns to the
      main menu; the mode becomes the option touched, or stays when the
      touch misses both options. The topology is untouched. */
  lemma AudioModeTouch(p: Panel, t: RawTouch)
    requires Valid(p) && p.screen == AudioMode && Pressed(t)
    ensures OnTouch(p, t).screen == MainMenu
    ensures OnTouch(p, t).saves == p.saves + 1
    ensures OnTouch(p, t).prefs == SaveTo(p.prefs, OnTouch(p, t).config)
    ensures OnTouch(p, t).config.audioMode ==
      (if InBand(ScreenY(t), 100, 130) then "fft"
       else if InBand(ScreenY(t), 140, 170) then "beat"
       else p.config.audioMode)
    ensures OnTouch(p, t).config.stripCount == p.config.stripCount
    ensures OnTouch(p, t).config.leds == p.config.leds
  {
  }

  /** On the strip-count screen any touch adds a strip, up to MAX_STRIPS,
      and starts the per-strip LED-count screen at the first strip. */
  lemma StripCountTouch(p: Panel, t: RawTouch)
    requires Valid(p) && p.screen == LedConfigStrips && Pressed(t)
    ensures OnTouch(p, t) == p.(screen := LedConfigCount, stripIndex := 0,
      config := p.config.(stripCount := if p.config.stripCount < MAX_STRIPS then p.config.stripCount + 1 else MAX_STRIPS))
  {
  }

  /** On the LED-count screen a touch steps the current strip's count and
      nothing else in the configuration, then moves to the next strip;
      exactly when that was the last strip it saves once and returns to the
      main menu. */
  lemma LedCountTouch(p: Panel, t: RawTouch)
    requires Valid(p) && p.screen == LedConfigCount && Pressed(t)
    ensures OnTouch(p, t).config == p.config.(leds := Stepped(p.config.leds, p.stripIndex, p.stripIndex + 1))
    ensures OnTouch(p, t).stripIndex == p.stripIndex + 1
    ensures OnTouch(p, t).screen == MainMenu <==> p.stripIndex + 1 == p.config.stripCount
    ensures OnTouch(p, t).screen != MainMenu ==> OnTouch(p, t).screen == LedConfigCount
    ensures OnTouch(p, t).saves == (if p.stripIndex + 1 == p.config.stripCount then p.saves + 1 else p.saves)
    ensures OnTouch(p, t).saves == p.saves ==> OnTouch(p, t).prefs == p.prefs
    ensures OnTouch(p, t).saves != p.saves ==> OnTouch(p, t).prefs == SaveTo(p.prefs, OnTouch(p, t).config)
  {
    assert p.config.leds[p.stripIndex := StepLedCount(p.config.leds[p.stripIndex])]
        == Stepped(p.config.leds, p.stripIndex, p.stripIndex + 1);
  }

  /** The store is written only when leaving the audio-mode screen or
      finishing the LED-count screen, and then it holds the configuration
      in force after the touch. */
  lemma SavesOnlyAtCheckpoints(p: Panel, t: RawTouch)
    requires Valid(p)
    ensures OnTouch(p, t).saves == p.saves || OnTouch(p, t).saves == p.saves + 1
    ensures OnTouch(p, t).saves == p.saves ==> OnTouch(p, t).prefs == p.prefs
    ensures OnTouch(p, t).saves != p.saves ==>
      && Pressed(t)
      && (p.screen == AudioMode || (p.screen == LedConfigCount && p.stripIndex + 1 == p.config.stripCount))
      && OnTouch(p, t).screen == MainMenu
      && OnTouch(p, t).prefs == SaveTo(p.prefs, OnTouch(p, t).config)
  {
  }

  /** No touch lowers the strip count: the menu has no way to remove a strip. */
  lemma {:induction false} StripCountNeverDecreases(p: Panel, ts: seq<RawTouch>)
    requires Valid(p)
    ensures p.config.stripCount <= Run(p, ts).config.stripCount <= MAX_STRIPS
    decreases |ts|
  {
    if ts != [] {
      StripCountNeverDecreases(OnTouch(p, ts[0]), ts[1..]);
    }
  }

  /** The visualizer screen has no exit: no sequence of touches leaves it,
      and the splash timer does not apply to it. */
  lemma {:induction false} VisualizerIsTerminal(p: Panel, ts: seq<RawTouch>, now: int, splashStart: int)
    requires Valid(p) && p.screen == Visualizer
    ensures Run(p, ts) == p
    ensures AfterSplash(p, now, splashStart) == p
    decreases |ts|
  {
    if ts != [] {
      VisualizerIsTerminal(OnTouch(p, ts[0]), ts[1..], now, splashStart);
    }
  }

  /** The splash screen ignores touches; only the timer leaves it. */
  lemma {:induction false} SplashIgnoresTouches(p: Panel, ts: seq<RawTouch>)
    requires Valid(p) && p.screen == Splash
    ensures Run(p, ts) == p
    decreases |ts|
  {
    if ts != [] {
      SplashIgnoresTouches(OnTouch(p, ts[0]), ts[1..]);
    }
  }

  /** Part way through the LED-count screen nothing has been saved: the
      strips touched so far have been stepped and the screen waits for the
      next strip. */
  lemma {:induction false} LedCountFlowPrefix(p: Panel, ts: seq<RawTouch>)
    requires Valid(p) && p.screen == LedConfigCount && AllPressed(ts)
    requires p.stripIndex + |ts| < p.config.stripCount
    ensures Run(p, ts) == p.(stripIndex := p.stripIndex + |ts|,
      config := p.config.(leds := Stepped(p.config.leds, p.stripIndex, p.stripIndex + |ts|)))
    decreases |ts|
  {
    if ts == [] {
      assert Stepped(p.config.leds, p.stripIndex, p.stripIndex) == p.config.leds;
    } else {
      var q := OnTouch(p, ts[0]);
      LedCountTouch(p, ts[0]);
      assert AllPressed(ts[1..]) by {
        forall k | 0 <= k < |ts[1..]| ensures Pressed(ts[1..][k]) {
          assert ts[1..][k] == ts[k + 1];
        }
      }
      LedCountFlowPrefix(q, ts[1..]);
      assert Stepped(q.config.leds, q.stripIndex, q.stripIndex + |ts| - 1)
          == Stepped(p.config.leds, p.stripIndex, p.stripIndex + |ts|);
    }
  }

  /** The whole "Configure LEDs" flow: one touch on the strip-count screen,
      then one per configured strip. It leaves `n` strips, steps exactly the
      first `n` LED counts, returns to the main menu and saves exactly once,
      the store then holding the new configuration. */
  lemma ConfigureLedsFlow(p: Panel, ts: seq<RawTouch>)
    requires Valid(p) && p.screen == LedConfigStrips && AllPressed(ts)
    requires |ts| == 1 + Constrain(p.config.stripCount + 1, 1, MAX_STRIPS)
    ensures var n := Constrain(p.config.stripCount + 1, 1, MAX_STRIPS);
      && Run(p, ts).screen == MainMenu
      && Run(p, ts).config == Config(n, Stepped(p.config.leds, 0, n), p.config.audioMode)
      && Run(p, ts).saves == p.saves + 1
      && Run(p, ts).prefs == SaveTo(p.prefs, Run(p, ts).config)
  {
    var n := Constrain(p.config.stripCount + 1, 1, MAX_STRIPS);
    var q := OnTouch(p, ts[0]);
    assert q.screen == LedConfigCount && q.stripIndex == 0 && q.config.stripCount == n;
    var middle := ts[1..|ts| - 1];
    assert AllPressed(middle) by {
      forall k | 0 <= k < |middle| ensures Pressed(middle[k]) {
        assert middle[k] == ts[k + 1];
      }
    }
    LedCountFlowPrefix(q, middle);
    var last := ts[|ts| - 1];
    RunAppend(q, middle, last);
    assert ts[1..] == middle + [last];
    var m := Run(q, middle);
    LedCountTouch(m, last);
    assert Stepped(m.config.leds, n - 1, n) == Stepped(p.config.leds, 0, n);
  }

  lemma {:induction false} RunAppend(p: Panel, ts: seq<RawTouch>, t: RawTouch)
    requires Valid(p)
    ensures Run(p, ts + [t]) == OnTouch(Run(p, ts), t)
    decreases |ts|
  {
    if ts == [] {
      assert [t][1..] == [];
    } else {
      assert (ts + [t])[1..] == ts[1..] + [t];
      RunAppend(OnTouch(p, ts[0]), ts[1..], t);
    }
  }

  /** From the main menu, a touch on "Audio Mode" followed by a touch on
      "Beat" selects the beat mode, returns to the main menu and saves once. */
  lemma SelectBeatMode(p: Panel)
    requires Valid(p) && p.screen == MainMenu
    ensures var r := Run(p, [RawTouch(250, 0, 500), RawTouch(480, 0, 500)]);
      && r.screen == MainMenu
      && r.config == p.config.(audioMode := "beat")
      && r.saves == p.saves + 1
      && r.prefs == SaveTo(p.prefs, r.config)
  {
    var ts := [RawTouch(250, 0, 500), RawTouch(480, 0, 500)];
    assert ScreenY(ts[0]) == 52;
    assert ScreenY(ts[1]) == 144;
    var q := OnTouch(p, ts[0]);
    assert q == p.(screen := AudioMode);
    assert ts[1..] == [ts[1]];
    assert ts[1..][1..] == [];
  }
}
