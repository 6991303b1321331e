/**
 The CSS-class theme provider: it keeps the colour-mode preference, resolves
 it against the OS dark-mode signal and puts the `dark` class on the document
 element exactly when the resolved mode is dark. React state, memoisation and
 effects are modelled as explicit transitions; every transition ends with the
 dark-class effect, which runs whenever the resolved theme changes.
 */
module CssThemeProvider {
  import opened Wrappers
  import opened ColorModes
  import opened ColorModeStorage

  /** The class the document element carries in dark mode. */
  const DarkClass: string := "dark"

  /** The provider's state together with the two pieces of the outside world it
      reads and writes: the OS signal and the document element's class list. */
  datatype Provider = Provider(colorMode: ColorMode, storage: Storage, prefersDark: bool, classes: set<string>)

  /** The theme the provider publishes. */
  function Theme(p: Provider): PaletteMode
  {
    Resolve(p.colorMode, p.prefersDark)
  }

  /** The effect on the document element: add `dark` in dark mode, remove it
      otherwise; no other class is touched. */
  function ApplyDarkClass(classes: set<string>, mode: PaletteMode): (r: set<string>)
    ensures DarkClass in r <==> mode == Dark
    ensures r - {DarkClass} == classes - {DarkClass}
  {
    if mode == Dark then classes + {DarkClass} else classes - {DarkClass}
  }

  function Commit(p: Provider): Provider
  {
    p.(classes := ApplyDarkClass(p.classes, Theme(p)))
  }

  /** The document agrees with the published theme. */
  ghost predicate Synced(p: Provider)
  {
    DarkClass in p.classes <==> Theme(p) == Dark
  }

  /** An explicit choice has been written to a storage, if there is one. */
  ghost predicate Persisted(p: Provider)
  {
    p.storage.BrowserStorage? ==> Read(p.storage) == Some(p.colorMode)
  }

  /** Mounting: the initial state is the stored value, else the default, else
      `system`; then the dark-class effect runs. */
  function Mount(defaultColorMode: Option<ColorMode>, storage: Storage, prefersDark: bool, classes: set<string>): (p: Provider)
    ensures Read(storage).Some? ==> p.colorMode == Read(storage).value
    ensures Read(storage).None? ==> p.colorMode == (if defaultColorMode.Some? then defaultColorMode.value else System)
    ensures p.storage == storage && p.prefersDark == prefersDark
    ensures p.classes - {DarkClass} == classes - {DarkClass}
    ensures Synced(p)
  {
    Commit(Provider(InitialColorMode(Read(storage), defaultColorMode), storage, prefersDark, classes))
  }

  /** The context's `setColorMode`: set the state and write the storage. */
  function SetColorMode(p: Provider, m: ColorMode): (r: Provider)
    ensures r.colorMode == m
    ensures r.storage == Write(p.storage, m)
    ensures Read(r.storage) == (if p.storage.BrowserStorage? then Some(m) else None)
    ensures r.prefersDark == p.prefersDark
    ensures r.classes - {DarkClass} == p.classes - {DarkClass}
    ensures Synced(r) && Persisted(r)
  {
    WriteThenRead(p.storage, m);
    Commit(p.(colorMode := m, storage := Write(p.storage, m)))
  }

  /** The OS dark-mode media query reports a new value. */
  function MediaChange(p: Provider, prefersDark: bool): (r: Provider)
    ensures r.colorMode == p.colorMode && r.storage == p.storage
    ensures r.prefersDark == prefersDark
    ensures r.classes - {DarkClass} == p.classes - {DarkClass}
    ensures Synced(r)
  {
    Commit(p.(prefersDark := prefersDark))
  }

  datatype Event = Choose(mode: ColorMode) | OsSignal(prefersDark: bool)

  function Step(p: Provider, e: Event): Provider
  {
    match e
    case Choose(m) => SetColorMode(p, m)
    case OsSignal(d) => MediaChange(p, d)
  }

  function Run(p: Provider, events: seq<Event>): Provider
    decreases |events|
  {
    if |events| == 0 then p else Run(Step(p, events[0]), events[1..])
  }

  /** The mode the last `Choose` in `events` picked, or `current` when none did. */
  function LastChoice(current: ColorMode, events: seq<Event>): ColorMode
    decreases |events|
  {
    if |events| == 0 then current
    else LastChoice(if events[0].Choose? then events[0].mode else current, events[1..])
  }

  /** After any run the document still agrees with the theme and the
      preference is the last one chosen; once a mode has been chosen, a storage
      holds it. */
  lemma {:induction false} RunInvariants(p: Provider, events: seq<Event>)
    requires Synced(p)
    ensures Synced(Run(p, events))
    ensures Persisted(p) ==> Persisted(Run(p, events))
    ensures (exists i :: 0 <= i < |events| && events[i].Choose?) ==> Persisted(Run(p, events))
    ensures Run(p, events).colorMode == LastChoice(p.colorMode, events)
    decreases |events|
  {
    if |events| > 0 {
      var next := Step(p, events[0]);
      RunInvariants(next, events[1..]);
      if exists i :: 0 <= i < |events| && events[i].Choose? {
        if !events[0].Choose? {
          var i :| 0 <= i < |events| && events[i].Choose?;
          assert events[1..][i - 1].Choose?;
        }
      }
    }
  }

  /** A first visit: browser storage holding nothing valid and no default
      given. Then the provider starts at `system`, and after a choice followed
      by any further events the storage holds the preference. */
  lemma FirstVisit(prefersDark: bool, classes: set<string>, m: ColorMode, later: seq<Event>)
    ensures Mount(None, BrowserStorage(map[]), prefersDark, classes).colorMode == System
    ensures var r := Run(Mount(None, BrowserStorage(map[]), prefersDark, classes), [Choose(m)] + later);
      Read(r.storage) == Some(r.colorMode)
  {
    var p := Mount(None, BrowserStorage(map[]), prefersDark, classes);
    var events := [Choose(m)] + later;
    assert events[0].Choose?;
    RunInvariants(p, events);
    StorageKindKept(p, events);
  }

  /** A run never adds or removes the storage, only writes through it. */
  lemma {:induction false} StorageKindKept(p: Provider, events: seq<Event>)
    ensures Run(p, events).storage.BrowserStorage? <==> p.storage.BrowserStorage?
    decreases |events|
  {
    if |events| > 0 {
      WriteThenRead(p.storage, if events[0].Choose? then events[0].mode else Light);
      StorageKindKept(Step(p, events[0]), events[1..]);
    }
  }

  /** With an explicit preference, any sequence of OS signal changes leaves the
      theme and the document's `dark` class as they were. */
  lemma {:induction false} OsSignalIgnoredWhenExplicit(p: Provider, events: seq<Event>)
    requires Synced(p) && p.colorMode != System
    requires forall i :: 0 <= i < |events| ==> events[i].OsSignal?
    ensures Theme(Run(p, events)) == Theme(p)
    ensures (DarkClass in Run(p, events).classes) == (DarkClass in p.classes)
    decreases |events|
  {
    if |events| > 0 {
      OsSignalIgnoredWhenExplicit(Step(p, events[0]), events[1..]);
    }
  }

  /** `setColorMode` read through the colour-mode context: the provider's
      setter, or, with no provider above the consumer, the default context's
      setter, which does nothing. */
  function ContextSetColorMode(provider: Option<Provider>, m: ColorMode): Option<Provider>
  {
    if provider.Some? then Some(SetColorMode(provider.value, m)) else None
  }

  /** `colorMode` read through the colour-mode context. */
  function ContextColorMode(provider: Option<Provider>): ColorMode
  {
    if provider.Some? then provider.value.colorMode else System
  }

  /** `colorMode` read through the theme context. */
  function ContextTheme(provider: Option<Provider>): PaletteMode
  {
    if provider.Some? then Theme(provider.value) else Light
  }

  /** Outside a provider the contexts report `system` and light and the setter
      changes nothing; inside one, a mode set through the context is the mode
      read back through it, and the theme is that mode resolved. */
  lemma ContextRoundTrip(provider: Option<Provider>, m: ColorMode)
    ensures provider.None? ==> ContextColorMode(provider) == System && ContextTheme(provider) == Light
    ensures provider.None? ==> ContextSetColorMode(provider, m) == provider
    ensures provider.Some? ==> ContextColorMode(ContextSetColorMode(provider, m)) == m
    ensures provider.Some? ==> ContextTheme(ContextSetColorMode(provider, m)) == Resolve(m, provider.value.prefersDark)
  {
  }
}
