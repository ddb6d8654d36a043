# Theme switcher model

A Dafny model of the one piece of behaviour in a React page that has a light/dark
theme switch. The model has three parts:

- **Palette resolution** (`Layout`). Two constant palettes each give four colour
  roles: `background`, `secondaryBackground`, `text` and `button`. A `switch`
  picks one of them from the current theme string: `"dark"` gives the dark
  palette, `"light"` gives the light palette, and every other string falls back
  to the light palette.
- **The switch handler** (`Home.Toggle`, `Home.OnSwitchChange`). The next theme
  is `"light"` when the current one is `"dark"`, and `"dark"` otherwise. It is
  handed to the shared context's `themeSwitchHandler`.
- **Persistence** (`Home.Persist`). An effect keyed on the theme writes the
  current theme to browser storage under the key `"theme"`.

The page state is the record `State(theme, storage)`. Storage is an abstract
`map<string, string>`. `Home.Activate` is one click of the switch followed by
the effect. The effect always runs after a click, because a click always changes
the theme. `Home.Run` is `n` clicks in a row.

`Themes` holds the two theme literals. It also defines a closed enumeration
`ThemeName` with `Name`/`Parse` between it and strings. The enumeration is a
reference definition: lemmas check the string-level switch and toggle against
it.

Three facts about the code shape the model:
- The theme may be any string. The palette switch has a default branch that
  gives the light palette (src/components/Layout.js:52-53). The toggle sends
  every string other than `"dark"` to `"dark"` (src/pages/Home.js:31).
- The storage write at src/pages/Home.js:19 is a plain `localStorage.setItem`
  with no try/catch around it.
- The theme is persisted by the page's own effect (src/pages/Home.js:18-20),
  not by `themeSwitchHandler`. The effect also runs once after the first
  render, so `Home.Session` starts with one write before any click.

## Model

| member | source | states |
|---|---|---|
| Layout.ResolvePalette | src/components/Layout.js:44-54 | Every theme string selects one of exactly two palettes. The result is the dark palette if and only if the string is "dark". Every other string, "light" or unrecognised, gives the light palette. The selected palette never has text equal to background. |
| Layout.PalettesDiffer | src/components/Layout.js:29-41 | The dark and light palettes differ in background and in text, so the two palettes are distinct. |
| Layout.ContrastWithinPalettes | src/components/Layout.js:29-41 | Within each palette, the background colour differs from the text colour. |
| Layout.DarkIsSwappedLight | src/components/Layout.js:29-41 | The dark palette is the light one with background and text exchanged, and secondary background and button exchanged. The same holds in the other direction. |
| Layout.ResolveMatchesTable | src/components/Layout.js:45-54 | The string switch agrees with the enumerated palette table. A recognised name selects its own palette, and an unrecognised string selects the light entry. |
| Layout.FallbackIsLight | src/components/Layout.js:49-53 | Any string other than "dark" and "light" resolves to exactly the palette that "light" resolves to. |
| Themes.Parse | src/components/Layout.js:45-51 | A string is recognised exactly when it is one of the two names the switch names explicitly, and the recognised selection is written back as that same string. |
| Themes.ParseName | src/components/Layout.js:45-51 | Writing a selection as its name and reading it back gives the same selection. |
| Home.Toggle | src/pages/Home.js:30-32 | The next theme is always "light" or "dark", so the palette switch then takes an explicit case. It always differs from the current theme. It is "light" exactly when the current theme is "dark", and "dark" for every other string, including unrecognised ones. |
| Home.ToggleInvolutive | src/pages/Home.js:31 | On "light" and "dark", toggling twice returns the starting theme. |
| Home.ToggleIsFlip | src/pages/Home.js:31 | On the two names, the string toggle agrees with flipping the enumerated selection. |
| Home.ToggleSwapsPalette | src/pages/Home.js:30-32 | From any theme string, one toggle changes the resolved palette into the role-swapped version of the previous palette, so the palette always changes. |
| Home.SwitchTheme | src/pages/Home.js:16 | The assumed context handler: the theme becomes the argument, and storage is untouched. |
| Home.OnSwitchChange | src/pages/Home.js:29-33 | The change handler always changes the theme to a recognised name. It goes to "light" exactly from "dark". It writes nothing to storage itself. |
| Home.Persist | src/pages/Home.js:18-20 | After the effect, storage maps "theme" to the current theme. The storage keys are the old keys plus "theme". Every other key keeps its value, and the theme itself is unchanged. |
| Home.PersistIdempotent | src/pages/Home.js:18-20 | Running the effect twice gives the same state as running it once. |
| Home.PersistSyncs | src/pages/Home.js:18-20 | After the effect, storage is in step with the theme. If storage is already in step, the effect changes nothing. |
| Home.Activate | src/pages/Home.js:16-33 | One click followed by its effect gives the toggled theme, with storage holding it. Only the "theme" key of storage changes. |
| Home.Effect | src/pages/Home.js:18-20 | The effect keyed on the theme never changes the theme. After a render where the theme changed, storage holds the new theme. When the theme did not change, the effect leaves the state exactly as it was. |
| Home.ActivateIsEffect | src/pages/Home.js:18-32 | A click followed by the theme-keyed effect equals `Activate`. The click always changes the theme, so the effect's guard always lets the write happen. |
| Home.SessionSynced | src/pages/Home.js:18-32 | A session is the effect's run after the first render followed by n clicks. At every point of it, storage holds the shown theme, and only the "theme" key differs from the starting storage. The shown theme is the start theme after an even number of clicks when the start was valid, and the toggled start theme after an odd number. |
| Home.RunAlternates | src/pages/Home.js:16-33 | After n clicks, an odd n shows the toggled start theme. An even, positive n shows the doubly toggled start theme, which is the start itself when the start was valid. After any click, the theme is valid, storage holds it, and no other storage key differs from the start. |

## Left out

- Reading the persisted theme at startup: this lives in the shared context module (src/context/globalContext), which is not part of this model.
- Home.Persist: a `setItem` that throws at src/pages/Home.js:19 (storage disabled, quota exceeded) is not modelled. Persist always succeeds, while the code lets the exception escape the effect.
- Non-string theme values are not represented. The theme comes from the shared context, which is not part of this model, and it is assumed to be a string. A `null` or other value would be written by `setItem` as its string form.
- Home.SwitchTheme: the context's `themeSwitchHandler` is not part of this model. It is assumed to overwrite the current theme with its argument and change nothing else.
- React scheduling: the model does not cover when the effect runs relative to rendering. It assumes only that the effect runs once after the first render and once after each theme change. Browser `localStorage` as real I/O is also left out; it is modelled as a map.
- The `GlobalStyle` CSS (src/components/Layout.js:7-26), the `ThemeProvider` rendering (src/components/Layout.js:56-61), the page markup and text (src/pages/Home.js:22-64), and the styled-components templates in src/styles/homeStyles.js: these are presentation only, with no behaviour.
- Colour values as colours: the hex strings are opaque string constants, and no colour arithmetic is modelled.
