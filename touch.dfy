/** Touch classification in `handleTouch`: the pressure window that decides
    whether a panel sample is a touch at all, the remap of raw panel
    coordinates to screen coordinates with Arduino `map`, and the fixed
    screen bands each menu reacts to. The panel is mounted rotated, so the
    screen's vertical coordinate comes from the panel's raw `x`. */
module Touch {
  import opened Arduino

  const MIN_PRESSURE := 200
  const MAX_PRESSURE := 1000

  datatype Option<T> = None | Some(value: T)

  /** A panel sample as `ts.getPoint()` returns it. */
  datatype RawTouch = RawTouch(x: int, y: int, z: int)

  /** Only a pressure strictly between the two bounds is a touch. */
  predicate Pressed(t: RawTouch) {
    MIN_PRESSURE < t.z < MAX_PRESSURE
  }

  /** `map(p.x, 120, 920, 0, 320)`: the vertical screen coordinate. */
  function ScreenY(t: RawTouch): (y: int)
    ensures 120 <= t.x <= 920 ==> 0 <= y <= 320
  {
    Map(t.x, 120, 920, 0, 320)
  }

  /** The horizontal band `[lo, hi)` of the screen a menu line occupies. */
  predicate InBand(y: int, lo: int, hi: int) {
    lo <= y < hi
  }

  /** The three lines of the main menu. */
  datatype MenuItem = AudioModeItem | ConfigureLedsItem | VisualizerItem

  function MainMenuItem(y: int): (r: Option<MenuItem>)
    ensures r == Some(AudioModeItem) <==> InBand(y, 50, 80)
    ensures r == Some(ConfigureLedsItem) <==> InBand(y, 100, 130)
    ensures r == Some(VisualizerItem) <==> InBand(y, 150, 180)
    ensures r == None <==> !(InBand(y, 50, 80) || InBand(y, 100, 130) || InBand(y, 150, 180))
  {
    if InBand(y, 50, 80) then Some(AudioModeItem)
    else if InBand(y, 100, 130) then Some(ConfigureLedsItem)
    else if InBand(y, 150, 180) then Some(VisualizerItem)
    else None
  }

  /** The two options of the audio-mode screen; `None` when the tap misses both. */
  function AudioModeOption(y: int): (r: Option<string>)
    ensures r == Some("fft") <==> InBand(y, 100, 130)
    ensures r == Some("beat") <==> InBand(y, 140, 170)
    ensures r == None <==> !(InBand(y, 100, 130) || InBand(y, 140, 170))
  {
    if InBand(y, 100, 130) then Some("fft")
    else if InBand(y, 140, 170) then Some("beat")
    else None
  }

  /** Below the input range the remap's numerator is negative; C truncation
      then rounds the vertical coordinate toward zero, below every band. */
  lemma {:induction false} ScreenYBelowRange(t: RawTouch)
    requires t.x < 120
    ensures ScreenY(t) <= 0
  {
    var n := (t.x - 120) * 320;
    assert n < 0 by {
      MulMonotone(t.x - 120, -1, 320);
    }
  }

  /** The vertical coordinate reaches a threshold `b > 0` exactly when
      `2 * (x - 120) >= 5 * b`, i.e. the remap is `floor(2 * (x - 120) / 5)`
      wherever it can matter. */
  lemma {:induction false} ScreenYAtLeast(t: RawTouch, b: int)
    requires b > 0
    ensures ScreenY(t) >= b <==> 2 * (t.x - 120) >= 5 * b
  {
    var d := t.x - 120;
    if d < 0 {
      ScreenYBelowRange(t);
    } else {
      assert ScreenY(t) == (d * 320) / 800;
      var q, r := (2 * d) / 5, (2 * d) % 5;
      assert d * 320 == 800 * q + 160 * r;
      assert (d * 320) / 800 == q;
    }
  }

  /** The raw panel bands behind each main-menu line. */
  lemma MainMenuRawBands(t: RawTouch)
    ensures MainMenuItem(ScreenY(t)) == Some(AudioModeItem) <==> 245 <= t.x < 320
    ensures MainMenuItem(ScreenY(t)) == Some(ConfigureLedsItem) <==> 370 <= t.x < 445
    ensures MainMenuItem(ScreenY(t)) == Some(VisualizerItem) <==> 495 <= t.x < 570
  {
    ScreenYAtLeast(t, 50);
    ScreenYAtLeast(t, 80);
    ScreenYAtLeast(t, 100);
    ScreenYAtLeast(t, 130);
    ScreenYAtLeast(t, 150);
    ScreenYAtLeast(t, 180);
  }

  /** The raw panel bands behind the two audio-mode options. */
  lemma AudioModeRawBands(t: RawTouch)
    ensures AudioModeOption(ScreenY(t)) == Some("fft") <==> 370 <= t.x < 445
    ensures AudioModeOption(ScreenY(t)) == Some("beat") <==> 470 <= t.x < 545
  {
    ScreenYAtLeast(t, 100);
    ScreenYAtLeast(t, 130);
    ScreenYAtLeast(t, 140);
    ScreenYAtLeast(t, 170);
  }
}
