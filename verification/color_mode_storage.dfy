/**
 The default colour-mode storage of both providers: one `localStorage` key,
 modelled as the browser's string-to-string item map. A provider without a
 storage keeps its preference in memory only.
 */
module ColorModeStorage {
  import opened Wrappers
  import opened ColorModes

  /** The `localStorage` key the preference is kept under. */
  const StorageKey: string := "colorMode"

  /** Looking up a storage item: its value, or null when the key is missing. */
  function GetItem(items: map<string, string>, key: string): Option<string>
  {
    if key in items then Some(items[key]) else None
  }

  /** The default storage's `getColorMode`: a missing or empty item is null,
      one of the three colour-mode names is returned as that mode, anything
      else is null. */
  function ReadItems(items: map<string, string>): (r: Option<ColorMode>)
    ensures r.Some? <==> StorageKey in items && Parse(items[StorageKey]).Some?
    ensures r.Some? ==> Text(r.value) == items[StorageKey]
  {
    var item := GetItem(items, StorageKey);
    if item.None? || item.value == "" then None
    else Parse(item.value)
  }

  /** The default storage's `setColorMode`: the mode's name is stored under the key. */
  function WriteItems(items: map<string, string>, m: ColorMode): (r: map<string, string>)
    ensures ReadItems(r) == Some(m)
    ensures r.Keys == items.Keys + {StorageKey}
    ensures forall k :: k in items && k != StorageKey ==> r[k] == items[k]
  {
    ParseText(m);
    items[StorageKey := Text(m)]
  }

  /** A corrupted or foreign stored value reads exactly like a missing one. */
  lemma CorruptValueIsAbsent(items: map<string, string>, s: string)
    requires s != "light" && s != "dark" && s != "system"
    ensures ReadItems(items[StorageKey := s]) == ReadItems(map k | k in items && k != StorageKey :: items[k])
    ensures ReadItems(items[StorageKey := s]) == None
  {
  }

  /** The storage a provider was given, if any. */
  datatype Storage = NoStorage | BrowserStorage(items: map<string, string>)

  /** Reading the preference through the provider's storage: absent when there is none. */
  function Read(s: Storage): Option<ColorMode>
  {
    match s
    case NoStorage => None
    case BrowserStorage(items) => ReadItems(items)
  }

  /** Writing the preference through the provider's storage: nothing happens without one. */
  function Write(s: Storage, m: ColorMode): Storage
  {
    match s
    case NoStorage => NoStorage
    case BrowserStorage(items) => BrowserStorage(WriteItems(items, m))
  }

  /** Reading back after a write: the written mode with a storage, absent without. */
  lemma WriteThenRead(s: Storage, m: ColorMode)
    ensures s.BrowserStorage? ==> Read(Write(s, m)) == Some(m)
    ensures s.NoStorage? ==> Read(Write(s, m)) == None
    ensures Write(s, m).NoStorage? <==> s.NoStorage?
  {
  }

  /** A second write of the same mode changes nothing. */
  lemma WriteIdempotent(s: Storage, m: ColorMode)
    ensures Write(Write(s, m), m) == Write(s, m)
  {
  }
}
