/** The strip topology and audio mode (`stripCount`, `ledsPerStrip[]`,
    `audioMode`) and how `saveConfig` and `loadConfig` move them to and
    from the key/value store. */
module Config {
  import opened Prefs

  const MAX_STRIPS := 4
  const MAX_LEDS := 150

  /** Defaults `loadConfig` falls back to for a key the store lacks. */
  const DEFAULT_STRIP_COUNT := 1
  const DEFAULT_LED_COUNT := 30
  const DEFAULT_AUDIO_MODE := "fft"

  const STRIP_COUNT_KEY := "stripCount"
  const AUDIO_MODE_KEY := "audioMode"

  /** `stripCount` is a `uint8_t` and each `ledsPerStrip` entry a `uint16_t`:
      a 32-bit value read back from the store is narrowed to them. */
  const UINT8_LIMIT := 0x100
  const UINT16_LIMIT := 0x1_0000

  datatype Config = Config(stripCount: int, leds: seq<int>, audioMode: string) {
    /** The topology bounds the renderer indexes with: at most MAX_STRIPS
        strips (a stored count of 0 is accepted and drives no strip), and a
        count of at most MAX_LEDS for each of the MAX_STRIPS slots of
        `ledsPerStrip`. */
    predicate Valid() {
      && 0 <= stripCount <= MAX_STRIPS
      && |leds| == MAX_STRIPS
      && forall k :: 0 <= k < |leds| ==> 0 <= leds[k] <= MAX_LEDS
    }
  }

  /** The configuration before `loadConfig` runs: the globals' initial values. */
  const BOOT := Config(1, [30, 30, 30, 30], "fft")

  /** The key `"leds_" + String(i)` under which strip `i`'s LED count is kept. */
  function LedKey(i: nat): (k: string)
    requires i < 10
    ensures k != STRIP_COUNT_KEY && k != AUDIO_MODE_KEY
    ensures |k| == 6 && k[..5] == "leds_" && k[5] as int - '0' as int == i
  {
    "leds_" + [('0' as int + i) as char]
  }

  lemma LedKeyInjective(i: nat, j: nat)
    requires i < 10 && j < 10 && LedKey(i) == LedKey(j)
    ensures i == j
  {
    assert LedKey(i)[5] == LedKey(j)[5];
  }

  /** The keys of strips `0 .. n-1`. */
  function LedKeys(n: nat): set<string>
    requires n <= 10
  {
    set k | 0 <= k < n :: LedKey(k)
  }

  /** The loop of `saveConfig` over strips `0 .. n-1`, one `putUInt` each. */
  function PutLeds(store: Store, leds: seq<int>, n: nat): (r: Store)
    requires n <= |leds| && n <= 10
    requires forall k :: 0 <= k < n ==> 0 <= leds[k] < UINT32_LIMIT
  {
    if n == 0 then store else PutUInt(PutLeds(store, leds, n - 1), LedKey(n - 1), leds[n - 1])
  }

  /** `saveConfig`: the strip count, the first `stripCount` LED counts and the mode. */
  function SaveTo(store: Store, c: Config): (r: Store)
    requires c.Valid()
    ensures STRIP_COUNT_KEY in r && r[STRIP_COUNT_KEY] == UInt(c.stripCount)
    ensures AUDIO_MODE_KEY in r && r[AUDIO_MODE_KEY] == Text(c.audioMode)
  {
    var s := PutUInt(store, STRIP_COUNT_KEY, c.stripCount);
    PutLedsLookup(s, c.leds, c.stripCount);
    PutString(PutLeds(s, c.leds, c.stripCount), AUDIO_MODE_KEY, c.audioMode)
  }

  /** `stripCount = prefs.getUInt("stripCount", 1)`: the stored value
      narrowed to a byte, 1 when the key is missing. */
  function LoadedStripCount(store: Store): (r: int)
    ensures 0 <= r < UINT8_LIMIT
    ensures STRIP_COUNT_KEY in store && store[STRIP_COUNT_KEY].UInt? ==> r == store[STRIP_COUNT_KEY].n % UINT8_LIMIT
    ensures !(STRIP_COUNT_KEY in store && store[STRIP_COUNT_KEY].UInt?) ==> r == DEFAULT_STRIP_COUNT
  {
    GetUInt(store, STRIP_COUNT_KEY, DEFAULT_STRIP_COUNT) % UINT8_LIMIT
  }

  /** `ledsPerStrip[i] = prefs.getUInt("leds_" + String(i), 30)`: the stored
      value narrowed to 16 bits, 30 when the key is missing. */
  function LoadedLedCount(store: Store, i: nat): (r: int)
    requires i < 10
    ensures 0 <= r < UINT16_LIMIT
    ensures LedKey(i) in store && store[LedKey(i)].UInt? ==> r == store[LedKey(i)].n % UINT16_LIMIT
    ensures !(LedKey(i) in store && store[LedKey(i)].UInt?) ==> r == DEFAULT_LED_COUNT
  {
    GetUInt(store, LedKey(i), DEFAULT_LED_COUNT) % UINT16_LIMIT
  }

  /** A store `loadConfig` can read without leaving the topology bounds: the
      narrowed strip count is at most MAX_STRIPS and each LED count it reads
      is at most MAX_LEDS. `loadConfig` does not check this itself. */
  predicate Loadable(store: Store) {
    && LoadedStripCount(store) <= MAX_STRIPS
    && forall i :: 0 <= i < LoadedStripCount(store) ==> LoadedLedCount(store, i) <= MAX_LEDS
  }

  /** The loop of `loadConfig` over strips `0 .. n-1`; later slots keep their value. */
  function LoadLeds(store: Store, leds: seq<int>, n: nat): (r: seq<int>)
    requires n <= |leds| && n <= 10
    ensures |r| == |leds|
    ensures forall k :: 0 <= k < n ==> r[k] == LoadedLedCount(store, k)
    ensures forall k :: n <= k < |leds| ==> r[k] == leds[k]
  {
    if n == 0 then leds else LoadLeds(store, leds, n - 1)[n - 1 := LoadedLedCount(store, n - 1)]
  }

  /** `loadConfig`, starting from the configuration `c` held before it runs. */
  function LoadFrom(store: Store, c: Config): (r: Config)
    requires Loadable(store) && |c.leds| == MAX_STRIPS
    ensures c.Valid() ==> r.Valid()
  {
    Config(LoadedStripCount(store),
           LoadLeds(store, c.leds, LoadedStripCount(store)),
           GetString(store, AUDIO_MODE_KEY, DEFAULT_AUDIO_MODE))
  }

  /** After the strip loop of `saveConfig`, strip `k`'s key holds its count,
      and every key that is not one of those keys is as it was. */
  lemma {:induction false} PutLedsLookup(store: Store, leds: seq<int>, n: nat)
    requires n <= |leds| && n <= 10
    requires forall k :: 0 <= k < n ==> 0 <= leds[k] < UINT32_LIMIT
    ensures forall k :: 0 <= k < n ==> LedKey(k) in PutLeds(store, leds, n) && PutLeds(store, leds, n)[LedKey(k)] == UInt(leds[k])
    ensures forall key :: key in store && (forall k :: 0 <= k < n ==> key != LedKey(k)) ==>
      key in PutLeds(store, leds, n) && PutLeds(store, leds, n)[key] == store[key]
  {
    if n > 0 {
      PutLedsLookup(store, leds, n - 1);
      forall k | 0 <= k < n - 1
        ensures LedKey(k) != LedKey(n - 1)
      {
        if LedKey(k) == LedKey(n - 1) {
          LedKeyInjective(k, n - 1);
        }
      }
    }
  }

  /** The save loop adds exactly the keys of strips `0 .. n-1`. */
  lemma {:induction false} PutLedsKeys(store: Store, leds: seq<int>, n: nat)
    requires n <= |leds| && n <= 10
    requires forall k :: 0 <= k < n ==> 0 <= leds[k] < UINT32_LIMIT
    ensures PutLeds(store, leds, n).Keys == store.Keys + LedKeys(n)
  {
    if n > 0 {
      PutLedsKeys(store, leds, n - 1);
      assert LedKeys(n) == LedKeys(n - 1) + {LedKey(n - 1)};
    }
  }

  /** Keys that `saveConfig` never writes keep their stored value. */
  lemma SaveKeepsOtherKeys(store: Store, c: Config, key: string)
    requires c.Valid() && key in store
    requires key != STRIP_COUNT_KEY && key != AUDIO_MODE_KEY
    requires forall k :: 0 <= k < c.stripCount ==> key != LedKey(k)
    ensures key in SaveTo(store, c) && SaveTo(store, c)[key] == store[key]
  {
    PutLedsLookup(PutUInt(store, STRIP_COUNT_KEY, c.stripCount), c.leds, c.stripCount);
  }

  /** Round trip: `loadConfig` after `saveConfig`, with no change in between,
      restores the strip count, the first `stripCount` LED counts and the
      mode, whatever configuration `loadConfig` starts from; started from the
      saved configuration itself it gives it back unchanged. */
  lemma LoadAfterSave(store: Store, c: Config, before: Config)
    requires c.Valid() && |before.leds| == MAX_STRIPS
    ensures Loadable(SaveTo(store, c))
    ensures LoadFrom(SaveTo(store, c), before).stripCount == c.stripCount
    ensures LoadFrom(SaveTo(store, c), before).leds[..c.stripCount] == c.leds[..c.stripCount]
    ensures LoadFrom(SaveTo(store, c), before).audioMode == c.audioMode
    ensures LoadFrom(SaveTo(store, c), c) == c
  {
    PutLedsLookup(PutUInt(store, STRIP_COUNT_KEY, c.stripCount), c.leds, c.stripCount);
    var saved := SaveTo(store, c);
    assert LoadedStripCount(saved) == c.stripCount;
    forall k | 0 <= k < c.stripCount
      ensures LoadedLedCount(saved, k) == c.leds[k]
    {
    }
    var r := LoadFrom(saved, c);
    assert r.leds == c.leds;
  }

  /** With none of its keys in the store, `loadConfig` yields one strip of 30
      LEDs and the "fft" mode. */
  lemma LoadDefaults(store: Store, before: Config)
    requires |before.leds| == MAX_STRIPS
    requires STRIP_COUNT_KEY !in store && AUDIO_MODE_KEY !in store && LedKey(0) !in store
    ensures Loadable(store)
    ensures LoadFrom(store, before) == Config(1, [30] + before.leds[1..], "fft")
  {
    assert LoadFrom(store, before).leds == [30] + before.leds[1..];
  }
}
