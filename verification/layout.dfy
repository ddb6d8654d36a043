/**
 The palette selection of the layout component: two constant four-role
 palettes and the switch that picks one from the current theme string.
 Colour values are opaque strings; nothing here interprets them as colours.
 */
module Layout {
  import opened Themes

  /** The four colour roles handed to the styling layer. */
  datatype Palette = Palette(
    background: string,
    secondaryBackground: string,
    text: string,
    button: string)

  const DarkPalette: Palette := Palette("#111827", "#374151", "#F9FAFB", "#E5E7EB")

  const LightPalette: Palette := Palette("#F9FAFB", "#E5E7EB", "#111827", "#374151")

  /** The palette table over the closed enumeration. */
  function PaletteOf(t: ThemeName): Palette {
    match t
    case LightTheme => LightPalette
    case DarkTheme => DarkPalette
  }

  /** Exchanges background with text and secondary background with button. */
  function Swap(p: Palette): Palette {
    Palette(p.text, p.button, p.background, p.secondaryBackground)
  }

  /**
   The `switch` on the current theme: "dark" gives the dark palette, "light"
   the light one, and every other string falls back to the light palette.
   */
  function ResolvePalette(s: string): (p: Palette)
    ensures p == DarkPalette || p == LightPalette
    ensures p == DarkPalette <==> s == Dark
    ensures p == LightPalette <==> s != Dark
    ensures p.background != p.text
  {
    match s
    case "dark" => DarkPalette
    case "light" => LightPalette
    case _ => LightPalette
  }

  /** The two palettes differ in background and in text colour. */
  lemma PalettesDiffer()
    ensures DarkPalette.background != LightPalette.background
    ensures DarkPalette.text != LightPalette.text
    ensures DarkPalette != LightPalette
  {
  }

  /** Within each palette the text colour is not the background colour. */
  lemma ContrastWithinPalettes()
    ensures DarkPalette.background != DarkPalette.text
    ensures LightPalette.background != LightPalette.text
  {
  }

  /** The dark palette is the light one with its roles exchanged pairwise, and back. */
  lemma DarkIsSwappedLight()
    ensures DarkPalette == Swap(LightPalette)
    ensures LightPalette == Swap(DarkPalette)
  {
  }

  /**
   The string switch agrees with the enumerated table: a valid name selects
   its own palette, and anything else is treated as the light selection.
   */
  lemma ResolveMatchesTable(s: string)
    ensures Parse(s).Some? ==> ResolvePalette(s) == PaletteOf(Parse(s).value)
    ensures Parse(s).None? ==> ResolvePalette(s) == PaletteOf(LightTheme)
  {
  }

  /** Any string outside the two names resolves exactly as "light" does. */
  lemma FallbackIsLight(s: string)
    requires !IsValid(s)
    ensures ResolvePalette(s) == ResolvePalette(Light)
  {
  }
}
