/**
 The Material-UI theme provider: the same colour-mode preference as the CSS
 provider, resolved the same way, but published as a choice between the light
 and the dark theme options. Its first render reads only the storage; an effect
 that runs after mounting (and again whenever the default or the storage
 changes) re-reads the storage and falls back to the default.
 */
module MuiThemeProvider {
  import opened Wrappers
  import opened ColorModes
  import opened ColorModeStorage
  import CssThemeProvider

  datatype Provider = Provider(colorMode: ColorMode, storage: Storage, prefersDark: bool)

  /** `lightThemeOptions` and `darkThemeOptions`; their tokens are library data
      and only their palette mode matters here. */
  datatype ThemeOptions = LightThemeOptions | DarkThemeOptions

  /** The `palette.mode` each set of options declares. */
  function OptionsPaletteMode(o: ThemeOptions): PaletteMode
  {
    match o
    case LightThemeOptions => Light
    case DarkThemeOptions => Dark
  }

  /** The light theme options for a light palette, the dark ones otherwise. */
  function ThemeOptionsFor(mode: PaletteMode): ThemeOptions
  {
    if mode == Light then LightThemeOptions else DarkThemeOptions
  }

  /** The options chosen for a mode declare that mode, and the light options are
      chosen exactly for light. */
  lemma ThemeOptionsRoundTrip(mode: PaletteMode)
    ensures OptionsPaletteMode(ThemeOptionsFor(mode)) == mode
    ensures ThemeOptionsFor(mode) == LightThemeOptions <==> mode == Light
  {
  }

  /** The options the theme is created from. */
  function Theme(p: Provider): ThemeOptions
  {
    ThemeOptionsFor(Resolve(p.colorMode, p.prefersDark))
  }

  /** The palette mode of the created theme, as `usePaletteMode` reads it. */
  function PaletteModeOf(p: Provider): (r: PaletteMode)
    ensures p.colorMode != System ==> r == p.colorMode
    ensures p.colorMode == System ==> (r == Dark <==> p.prefersDark)
    ensures Theme(p) == LightThemeOptions <==> r == Light
  {
    OptionsPaletteMode(Theme(p))
  }

  /** A value picked by palette mode; the two values may differ in type. */
  datatype Either<L, D> = LightValue(light: L) | DarkValue(dark: D)

  /** The value hook: the light value under a light palette, else the dark one. */
  function UseColorModeValue<L, D>(light: L, dark: D, mode: PaletteMode): (r: Either<L, D>)
    ensures r.LightValue? <==> mode == Light
    ensures r.LightValue? ==> r.light == light
    ensures r.DarkValue? ==> r.dark == dark
  {
    if mode == Light then LightValue(light) else DarkValue(dark)
  }

  /** Inside a provider the light value is picked exactly when the preference
      resolves to light. */
  lemma ColorModeValueInProvider<L, D>(p: Provider, light: L, dark: D)
    ensures UseColorModeValue(light, dark, PaletteModeOf(p)).LightValue?
        <==> Resolve(p.colorMode, p.prefersDark) == Light
  {
  }

  /** The first render: the stored value, else `system`; the default is ignored. */
  function FirstRender(storage: Storage, prefersDark: bool): (p: Provider)
    ensures p.colorMode == InitialColorMode(Read(storage), None)
    ensures Read(storage).None? ==> p.colorMode == System
    ensures p.storage == storage && p.prefersDark == prefersDark
  {
    Provider(Or(Read(storage), Some(System)).value, storage, prefersDark)
  }

  /** The effect: the stored value, else the default, else `system`, reading
      the storage as it is when the effect runs. */
  function Effect(p: Provider, defaultColorMode: Option<ColorMode>): (r: Provider)
    ensures r.colorMode == InitialColorMode(Read(p.storage), defaultColorMode)
    ensures r.storage == p.storage && r.prefersDark == p.prefersDark
  {
    p.(colorMode := Or(Read(p.storage), Or(defaultColorMode, Some(System))).value)
  }

  /** Mounting: first render, then the effect; the default given is honoured
      only from the effect on. */
  function Mount(defaultColorMode: Option<ColorMode>, storage: Storage, prefersDark: bool): (p: Provider)
    ensures p.colorMode == InitialColorMode(Read(storage), defaultColorMode)
    ensures p.colorMode != FirstRender(storage, prefersDark).colorMode ==> Read(storage).None? && defaultColorMode.Some?
    ensures p.storage == storage && p.prefersDark == prefersDark
  {
    Effect(FirstRender(storage, prefersDark), defaultColorMode)
  }

  /** The first render agrees with the CSS provider's initial state except
      exactly when nothing is stored and an explicit light or dark default is
      given. */
  lemma FirstRenderDivergence(defaultColorMode: Option<ColorMode>, storage: Storage, prefersDark: bool, classes: set<string>)
    ensures FirstRender(storage, prefersDark).colorMode != CssThemeProvider.Mount(defaultColorMode, storage, prefersDark, classes).colorMode
        <==> Read(storage).None? && defaultColorMode.Some? && defaultColorMode.value != System
  {
  }

  /** Once the effect has run, both providers hold the same preference and
      publish the same palette mode. */
  lemma MountAgreesWithCss(defaultColorMode: Option<ColorMode>, storage: Storage, prefersDark: bool, classes: set<string>)
    ensures Mount(defaultColorMode, storage, prefersDark).colorMode
         == CssThemeProvider.Mount(defaultColorMode, storage, prefersDark, classes).colorMode
    ensures PaletteModeOf(Mount(defaultColorMode, storage, prefersDark))
         == CssThemeProvider.Theme(CssThemeProvider.Mount(defaultColorMode, storage, prefersDark, classes))
  {
  }

  /** The context's `setColorMode`: set the state and write the storage. */
  function SetColorMode(p: Provider, m: ColorMode): (r: Provider)
    ensures r.colorMode == m && r.prefersDark == p.prefersDark
    ensures r.storage == Write(p.storage, m)
    ensures Read(r.storage) == (if p.storage.BrowserStorage? then Some(m) else None)
  {
    WriteThenRead(p.storage, m);
    p.(colorMode := m, storage := Write(p.storage, m))
  }

  /** Setting the same mode twice is the same as setting it once. */
  lemma SetColorModeIdempotent(p: Provider, m: ColorMode)
    ensures SetColorMode(SetColorMode(p, m), m) == SetColorMode(p, m)
  {
  }

  /** If the effect runs again after a choice (because the default or the
      storage changed), a storage keeps the choice, but without one the choice
      is replaced by the default. */
  lemma EffectAfterSetColorMode(p: Provider, m: ColorMode, defaultColorMode: Option<ColorMode>)
    ensures p.storage.BrowserStorage? ==> Effect(SetColorMode(p, m), defaultColorMode).colorMode == m
    ensures p.storage.NoStorage? ==> Effect(SetColorMode(p, m), defaultColorMode).colorMode == InitialColorMode(None, defaultColorMode)
  {
  }

  /** The OS dark-mode media query reports a new value. */
  function MediaChange(p: Provider, prefersDark: bool): (r: Provider)
    ensures r.colorMode == p.colorMode && r.storage == p.storage
    ensures r.prefersDark == prefersDark
    ensures p.colorMode != System ==> Theme(r) == Theme(p)
  {
    p.(prefersDark := prefersDark)
  }

  /** The colour mode read through the context; `system` outside a provider,
      where the default context's setter does nothing. */
  function ContextColorMode(provider: Option<Provider>): ColorMode
  {
    if provider.Some? then provider.value.colorMode else System
  }

  function ContextSetColorMode(provider: Option<Provider>, m: ColorMode): Option<Provider>
  {
    if provider.Some? then Some(SetColorMode(provider.value, m)) else None
  }

  /** Outside a provider the context reports `system` and its setter changes
      nothing; inside one a mode set through the context is read back. */
  lemma ContextRoundTrip(provider: Option<Provider>, m: ColorMode)
    ensures provider.None? ==> ContextColorMode(provider) == System
    ensures provider.None? ==> ContextSetColorMode(provider, m) == provider
    ensures provider.Some? ==> ContextColorMode(ContextSetColorMode(provider, m)) == m
  {
  }
}
