# Colour mode, async button and counters — a Dafny model

This project models the small pure rules beneath a React / Material-UI
single-page-application template:

- **Colour mode.** The user's preference is `light`, `dark` or `system`. It is
  read from one browser storage key, `colorMode`, where only those three strings
  are valid. It resolves against the OS dark-mode signal to a `light`/`dark`
  palette mode. A setter changes the preference and writes it back. Two
  providers publish the result:
  - the CSS provider (`src/theme/theme.tsx`) toggles the `dark` class on the
    document element;
  - the Material-UI provider (`src/theme/ThemeProvider/ThemeProvider.tsx`)
    picks the light or the dark theme options.
- **Async button.** A `loading` flag goes up on click, before the handler is
  awaited. A `finally` clears it, whether the handler fulfils or throws. The
  rendered disabled flag, start icon and label follow from that flag.
- **Counters.** `generateStringKey` yields `key_1`, `key_2`, … .
  `TimerStore.increase` adds one to `seconds`.

Browser APIs become plain values:
- `localStorage` is a `map<string, string>`;
- `matchMedia('(prefers-color-scheme: dark)')` is a `bool`;
- the document element's class list is a `set<string>`.

React state, memoisation and effects become explicit transition functions:
`Mount`, `SetColorMode`, `MediaChange`, `Effect`, and `Step`/`Run` over event
sequences.

JavaScript numbers are doubles. A counter that starts at 0 and only adds 1
counts exactly up to 2^53. After that it stays at 2^53, because 2^53 + 1 rounds
back to 2^53 (`JsNumber`). So the key generator's uniqueness is proved for the
first 2^53 calls, and `StringKeys.KeyRepeatsAtLimit` shows that call 2^53 + 1
repeats the key of call 2^53. The timer's "adds one" likewise holds below 2^53.

Files: `wrappers.dfy` (Option and JavaScript `||`), `js_number.dfy`,
`color_modes.dfy`, `color_mode_storage.dfy`, `css_theme_provider.dfy`,
`mui_theme_provider.dfy`, `async_button.dfy`, `string_keys.dfy`,
`timer_store.dfy`.

Notes on the code's behaviour:

- The two providers are not interchangeable. The Material-UI provider's first
  render ignores `defaultColorMode`. They differ exactly when nothing valid is
  stored and the default is `light` or `dark` (`MuiThemeProvider.FirstRenderDivergence`).
  After its effect has run, the two agree (`MuiThemeProvider.MountAgreesWithCss`).
- An invalid stored value falls back to `defaultColorMode` first, and to
  `system` only when no default is given. The default props make that default
  `system`.
- Neither provider de-duplicates or coalesces change notifications. Neither
  catches a failing storage write. Neither has an explicit subscription or
  teardown of its own. None of these is asserted.

## Model

| member | source | states |
|---|---|---|
| ColorModes.Parse | src/theme/theme.tsx:86-89 | a stored string is accepted exactly when it is `light`, `dark` or `system`, and what is accepted is the stored text of that mode |
| ColorModes.ParseText | src/theme/theme.tsx:86-92 | validating the string a mode is written as yields that mode |
| ColorModes.TextInjective | src/theme/theme.tsx:4 | two modes are written as the same string iff they are the same mode |
| ColorModes.InitialColorMode | src/theme/theme.tsx:42 | the initial preference is the stored value if present, else the default if given, else `system` |
| ColorModes.Resolve | src/theme/theme.tsx:57 | an explicit preference resolves to itself; `system` resolves to dark iff the OS prefers dark |
| ColorModes.ResolveExplicit | src/theme/theme.tsx:57 | an explicit `light`/`dark` resolves to itself whatever the OS signal |
| ColorModes.ResolveSystem | src/theme/theme.tsx:57 | under `system` the resolved mode is dark iff the OS prefers dark, light iff it does not |
| ColorModes.ResolveSignalIndependence | src/theme/theme.tsx:57 | flipping the OS signal leaves the resolved mode unchanged iff the preference is explicit |
| ColorModes.ResolveIdempotent | src/theme/theme.tsx:57 | a resolved mode is never `system`: resolving it again under any signal returns it unchanged |
| ColorModeStorage.ReadItems | src/theme/theme.tsx:81-90 | default storage read: present iff the key exists and holds one of the three names; the result is the mode that name denotes; a missing key, the empty string and anything else read as absent |
| ColorModeStorage.WriteItems | src/theme/theme.tsx:91-93 | default storage write: reading back gives the written mode; only the `colorMode` key is added or changed |
| ColorModeStorage.CorruptValueIsAbsent | src/theme/ThemeProvider/ThemeProvider.tsx:156-165 | a stored value outside the three names reads exactly as if the key were missing |
| ColorModeStorage.WriteThenRead | src/theme/theme.tsx:50 | after `colorModeStorage?.setColorMode(m)`, reading gives `m` with a storage and absent without one |
| ColorModeStorage.WriteIdempotent | src/theme/theme.tsx:91-93 | writing the same mode twice leaves the storage as writing it once |
| CssThemeProvider.ApplyDarkClass | src/theme/theme.tsx:63-69 | the document has the `dark` class iff the resolved mode is dark, and no other class changes |
| CssThemeProvider.Mount | src/theme/theme.tsx:42-69 | mounting picks stored, else default, else `system`; the document's `dark` class agrees with the theme and no other class changes |
| CssThemeProvider.SetColorMode | src/theme/theme.tsx:48-51 | the setter makes the preference `m` and writes `m` through the storage, which then reads back `m`; without storage the storage stays absent; the document stays in agreement and no other class changes |
| CssThemeProvider.MediaChange | src/theme/theme.tsx:43-69 | an OS signal change keeps preference and storage, re-syncs the `dark` class and changes no other class |
| CssThemeProvider.RunInvariants | src/theme/theme.tsx:42-69 | from any synced state, including a fresh mount, over any sequence of choices and OS changes the `dark` class matches the theme and the preference is the last one chosen; once a mode is chosen (or if it already was), storage holds the preference |
| CssThemeProvider.FirstVisit | src/theme/theme.tsx:42-93 | with empty browser storage and no default the provider starts at `system`, and after a choice followed by any further events, storage reads back the current preference |
| CssThemeProvider.OsSignalIgnoredWhenExplicit | src/theme/theme.tsx:56-69 | with an explicit preference, no sequence of OS changes alters the theme or the `dark` class |
| CssThemeProvider.ContextRoundTrip | src/theme/theme.tsx:20-39 | outside a provider the contexts give `system` and light and the setter does nothing; inside, a mode set through the context is read back and resolved |
| MuiThemeProvider.ThemeOptionsRoundTrip | src/theme/ThemeProvider/ThemeProvider.tsx:143 | the chosen options declare the resolved palette mode, and the light options are chosen iff the mode is light |
| MuiThemeProvider.PaletteModeOf | src/theme/ThemeProvider/ThemeProvider.tsx:141-144 | the theme's palette mode is the explicit preference, or under `system` dark iff the media query matches; light options iff light |
| MuiThemeProvider.UseColorModeValue | src/theme/ThemeProvider/ThemeProvider.tsx:39-41 | the light value is returned iff the palette mode is light, else the dark value |
| MuiThemeProvider.ColorModeValueInProvider | src/theme/ThemeProvider/ThemeProvider.tsx:35-41 | inside a provider the light value is picked iff the preference resolves to light |
| MuiThemeProvider.FirstRender | src/theme/ThemeProvider/ThemeProvider.tsx:124 | the first render takes the stored value or `system`, ignoring the default |
| MuiThemeProvider.Effect | src/theme/ThemeProvider/ThemeProvider.tsx:127-129 | after the effect the preference is stored, else default, else `system`, read from the current storage |
| MuiThemeProvider.Mount | src/theme/ThemeProvider/ThemeProvider.tsx:124-129 | after the first render and the effect the preference is stored, else default, else `system`; it differs from the first render only when nothing is stored and a default is given |
| MuiThemeProvider.FirstRenderDivergence | src/theme/ThemeProvider/ThemeProvider.tsx:124-129 | the first render differs from the CSS provider's initial state iff nothing is stored and the default is `light` or `dark` |
| MuiThemeProvider.MountAgreesWithCss | src/theme/ThemeProvider/ThemeProvider.tsx:127-129 | after the effect both providers hold the same preference and palette mode |
| MuiThemeProvider.SetColorMode | src/theme/ThemeProvider/ThemeProvider.tsx:134-137 | the setter makes the preference `m` and writes `m` through the storage, touching no other storage key, and storage reads back `m`; without storage only the state changes |
| MuiThemeProvider.SetColorModeIdempotent | src/theme/ThemeProvider/ThemeProvider.tsx:134-137 | setting the same mode twice equals setting it once |
| MuiThemeProvider.EffectAfterSetColorMode | src/theme/ThemeProvider/ThemeProvider.tsx:127-137 | if the effect re-runs after a choice, a storage keeps the choice; without one the default replaces it |
| MuiThemeProvider.MediaChange | src/theme/ThemeProvider/ThemeProvider.tsx:141-144 | an OS change keeps preference and storage, and leaves the theme unchanged under an explicit preference |
| MuiThemeProvider.ContextRoundTrip | src/theme/ThemeProvider/ThemeProvider.tsx:26-33 | the default context's mode is `system` and its setter does nothing; inside a provider a set mode is read back |
| AsyncButton.Click | src/components/AsyncButton/AsyncButton.tsx:15 | a click raises `loading` and adds one awaited handler before anything is awaited |
| AsyncButton.Settle | src/components/AsyncButton/AsyncButton.tsx:16-21 | after the handler settles `loading` is false and the click handler itself fulfils, whatever the outcome |
| AsyncButton.Render | src/components/AsyncButton/AsyncButton.tsx:27-28 | disabled iff loading or the prop is set; while loading the loading icon and `loadingIndicator ?? children`, otherwise the start icon and the children |
| AsyncButton.Step | src/components/AsyncButton/AsyncButton.tsx:13-27 | a press on a disabled or loading button is dropped; otherwise it starts loading with one more handler awaited; a settlement clears loading, and is impossible with nothing awaited |
| AsyncButton.StepPreservesGuard | src/components/AsyncButton/AsyncButton.tsx:13-27 | each press or settlement keeps: at most one handler awaited, loading iff one is |
| AsyncButton.RunPreservesGuard | src/components/AsyncButton/AsyncButton.tsx:11-27 | every sequence of presses and settlements keeps that guard |
| AsyncButton.InitialGuarded | src/components/AsyncButton/AsyncButton.tsx:11 | the button starts not loading, with the guard holding |
| AsyncButton.PressWhilePending | src/components/AsyncButton/AsyncButton.tsx:13-27 | a press on an idle enabled button starts loading; presses while a handler is awaited change nothing |
| AsyncButton.SettleIgnoresOutcome | src/components/AsyncButton/AsyncButton.tsx:16-21 | fulfilment and rejection both return the button to its initial idle state |
| AsyncButton.RenderFollowsPending | src/components/AsyncButton/AsyncButton.tsx:27-28 | while a handler is awaited the button is disabled, shows `loadingIcon` and `loadingIndicator ?? children`; when idle it shows the props as given |
| StringKeys.Decimal | src/utils/common.ts:5 | a number prints as a non-empty digit string with no leading zero when positive |
| StringKeys.DecimalRoundTrip | src/utils/common.ts:5 | the printed digits denote the number printed |
| StringKeys.KeyRoundTrip | src/utils/common.ts:5 | a key is `key_` plus a positive decimal integer and parses back to its counter value |
| StringKeys.KeyInjective | src/utils/common.ts:5 | two counter values give the same key iff they are equal |
| StringKeys.Next | src/utils/common.ts:3-9 | one call advances the counter by one below 2^53 and yields the key of the new value |
| StringKeys.GenerateKeys | src/utils/common.ts:1-11 | the n-th of n calls returns `key_` + n (capped at 2^53) |
| StringKeys.FirstKey | src/utils/common.ts:3-5 | the first call returns `key_1` |
| StringKeys.NthKeysDistinct | src/utils/common.ts:3-5 | among the first 2^53 calls no two return the same key |
| StringKeys.KeyRepeatsAtLimit | src/utils/common.ts:3-5 | call 2^53 + 1 returns the same key as call 2^53 |
| TimerStore.New | src/store/timer.store.ts:7-10 | a new store holds the given root store and 0 seconds |
| TimerStore.Increase | src/store/timer.store.ts:14-16 | `increase` adds exactly one below 2^53 and leaves the root store unchanged |
| TimerStore.IncreaseTimesCounts | src/store/timer.store.ts:14-16 | n increases add n (capped at 2^53) and keep the root store |
| TimerStore.IncreaseFromNew | src/store/timer.store.ts:7-16 | after n increases from construction, `seconds` is n |

## Left out

- React rendering, contexts, `useMemo` identity and effect scheduling are modelled only as explicit state transitions. Re-renders and change notifications are not modelled, and the code has no de-duplication or coalescing of them.
- The OS signal comes from two different hooks. The CSS provider uses `useMediaQuery` from `src/theme/useMediaQuery.ts`. The Material-UI provider uses `useMediaQuery` from `@mui/material`, whose first-render value depends on that library's own options. Both hooks, with their subscriptions and teardown, are browser and library wiring. The model treats the hook's value as the OS signal from the first render on: a `bool` input, with each change a `MediaChange` event.
- `createTheme` and the concrete theme tokens and colours are library data. Only the choice between the light and dark options, and the palette mode each declares, is modelled. `createTheme` is taken to keep `palette.mode`.
- Custom `ColorModeStorage` implementations are arbitrary caller code. The initial-choice rule takes any storage's result as an `Option<ColorMode>`. Reads and writes are modelled only for the default browser storage and for no storage.
- `localStorage.setItem` can throw, for example when the quota is exceeded. The code does not catch this, and the model has no failing write.
- The Promise machinery and event loop are reduced to the idle/loading machine with press and settle events. A press on a disabled button never reaches the handler: that is browser behaviour, assumed in `AsyncButton.Step`. `sleep` is a timer and is not modelled.
- The button's remaining `ButtonProps` are passed straight through and are not modelled.
- `TimerStore.seconds` is a public field that other code could set to any number. Only construction and `increase` are modelled, so its values are the counts 0..2^53.
- `App.tsx`, `Home.tsx`, `root.store.tsx` and `i18next.d.ts` are routing, layout, global wiring and type declarations, and are not modelled.
