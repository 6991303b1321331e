/**
 The colour-mode vocabulary shared by both theme providers: the tri-state
 preference, the binary palette mode it resolves to, the strings they are
 stored as, and the initial-choice rule.
 */
module ColorModes {
  import opened Wrappers

  /** The user's preference: light, dark, or follow the system. */
  datatype ColorMode = Light | Dark | System

  /** The resolved mode, `'light' | 'dark'`: a colour mode other than `system`. */
  type PaletteMode = m: ColorMode | m != System witness Light

  /** The string a colour mode is written to storage as. */
  function Text(m: ColorMode): string
  {
    match m
    case Light => "light"
    case Dark => "dark"
    case System => "system"
  }

  /** Validation of a stored string: only the three colour-mode names are
      accepted, anything else is absent. */
  function Parse(s: string): (r: Option<ColorMode>)
    ensures r.Some? <==> s == "light" || s == "dark" || s == "system"
    ensures r.Some? ==> Text(r.value) == s
  {
    if s == "light" then Some(Light)
    else if s == "dark" then Some(Dark)
    else if s == "system" then Some(System)
    else None
  }

  /** Writing a mode and validating it gives the mode back. */
  lemma ParseText(m: ColorMode)
    ensures Parse(Text(m)) == Some(m)
  {
  }

  /** Two modes are stored as the same string only if they are the same mode. */
  lemma TextInjective(m: ColorMode, n: ColorMode)
    ensures Text(m) == Text(n) <==> m == n
  {
  }

  /** The initial-choice rule: the stored value if present, else the default
      if given, else `system`. */
  function InitialColorMode(stored: Option<ColorMode>, defaultColorMode: Option<ColorMode>): (r: ColorMode)
    ensures stored.Some? ==> r == stored.value
    ensures stored.None? && defaultColorMode.Some? ==> r == defaultColorMode.value
    ensures stored.None? && defaultColorMode.None? ==> r == System
  {
    Or(stored, Or(defaultColorMode, Some(System))).value
  }

  /** Resolution against the OS signal: an explicit mode stands; `system`
      follows the OS, dark when it prefers dark and light otherwise. */
  function Resolve(m: ColorMode, prefersDark: bool): (r: PaletteMode)
    ensures m != System ==> r == m
    ensures m == System ==> (r == Dark <==> prefersDark)
  {
    if m == System then (if prefersDark then Dark else Light) else m
  }

  /** An explicit mode resolves to itself, whatever the OS signal. */
  lemma ResolveExplicit(m: ColorMode, prefersDark: bool)
    requires m != System
    ensures Resolve(m, prefersDark) == m
  {
  }

  /** Under `system` the resolved mode is dark exactly when the OS prefers dark. */
  lemma ResolveSystem(prefersDark: bool)
    ensures Resolve(System, prefersDark) == Dark <==> prefersDark
    ensures Resolve(System, prefersDark) == Light <==> !prefersDark
  {
  }

  /** With an explicit preference, flipping the OS signal does not change the
      resolved mode; under `system` it always does. */
  lemma ResolveSignalIndependence(m: ColorMode)
    ensures Resolve(m, true) == Resolve(m, false) <==> m != System
  {
  }

  /** A resolved mode is a fixed point of resolution: resolving it again, under
      any OS signal, changes nothing. */
  lemma ResolveIdempotent(m: ColorMode, first: bool, second: bool)
    ensures Resolve(Resolve(m, first), second) == Resolve(m, first)
  {
  }
}
