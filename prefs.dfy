/** The non-volatile key/value store (the ESP32 `Preferences` namespace the
    controller opens) seen through the four calls the controller makes:
    `putUInt`, `getUInt`, `putString` and `getString`. A key holds either an
    unsigned 32-bit integer or a string; a read of a missing key, or of a key
    that holds the other kind, yields the caller's default. */
module Prefs {

  const UINT32_LIMIT := 0x1_0000_0000

  type uint32 = x: int | 0 <= x < UINT32_LIMIT

  datatype Value = UInt(n: uint32) | Text(s: string)

  type Store = map<string, Value>

  function GetUInt(store: Store, key: string, default: uint32): uint32 {
    if key in store && store[key].UInt? then store[key].n else default
  }

  function GetString(store: Store, key: string, default: string): string {
    if key in store && store[key].Text? then store[key].s else default
  }

  function PutUInt(store: Store, key: string, v: uint32): (r: Store)
    ensures forall d: uint32 :: GetUInt(r, key, d) == v
  {
    store[key := UInt(v)]
  }

  function PutString(store: Store, key: string, v: string): (r: Store)
    ensures forall d :: GetString(r, key, d) == v
  {
    store[key := Text(v)]
  }

  /** A put touches only its own key: every other key keeps its value, and
      the key set grows by that key alone. */
  lemma PutUIntFrame(store: Store, key: string, v: uint32)
    ensures forall k :: k in store && k != key ==> k in PutUInt(store, key, v) && PutUInt(store, key, v)[k] == store[k]
    ensures PutUInt(store, key, v).Keys == store.Keys + {key}
  {
  }

  lemma PutStringFrame(store: Store, key: string, v: string)
    ensures forall k :: k in store && k != key ==> k in PutString(store, key, v) && PutString(store, key, v)[k] == store[k]
    ensures PutString(store, key, v).Keys == store.Keys + {key}
  {
  }
}
