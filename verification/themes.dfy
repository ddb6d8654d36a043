/**
 The two theme names the page knows about. The current theme comes from a
 shared context whose code is not part of this model; the model assumes it is
 some string, not necessarily one of the two names, so every operation takes a
 `string`. This module fixes the two literals and gives them a closed
 enumeration, used as an independent reference for the string-level rules.
 */
module Themes {

  datatype Option<+T> = None | Some(value: T)

  /** The literal stored for the light theme. */
  const Light: string := "light"

  /** The literal stored for the dark theme. */
  const Dark: string := "dark"

  /** A theme string the palette switch names explicitly. */
  predicate IsValid(s: string) {
    s == Light || s == Dark
  }

  /** The closed enumeration of theme selections. */
  datatype ThemeName = LightTheme | DarkTheme

  /** The string a selection is written as. */
  function Name(t: ThemeName): (s: string)
    ensures IsValid(s)
    ensures t.DarkTheme? <==> s == Dark
  {
    match t
    case LightTheme => Light
    case DarkTheme => Dark
  }

  /** Reads a theme string back into a selection; `None` for any other string. */
  function Parse(s: string): (r: Option<ThemeName>)
    ensures r.Some? <==> IsValid(s)
    ensures r.Some? ==> Name(r.value) == s
  {
    if s == Dark then Some(DarkTheme)
    else if s == Light then Some(LightTheme)
    else None
  }

  /** The other selection. */
  function Flip(t: ThemeName): ThemeName {
    match t
    case LightTheme => DarkTheme
    case DarkTheme => LightTheme
  }

  /** Writing a selection and reading it back gives the same selection. */
  lemma ParseName(t: ThemeName)
    ensures Parse(Name(t)) == Some(t)
  {
  }
}
