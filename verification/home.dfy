/**
 The page's theme state: the switch's change handler, which asks the shared
 context to take the other theme, and the effect keyed on the theme, which
 writes the current theme to browser storage under the key "theme".

 The context's `themeSwitchHandler` is not part of this model; it is taken to
 overwrite the current theme with its argument and do nothing else
 (`SwitchTheme`). Browser storage is an abstract string-to-string map.
 */
module Home {
  import opened Themes
  import opened Layout

  /** The storage key the effect writes under. */
  const StorageKey: string := "theme"

  /** The current theme string and the contents of browser storage. */
  datatype State = State(theme: string, storage: map<string, string>)

  /**
   The switch's next theme: "dark" becomes "light", and every other string,
   including an unrecognised one, becomes "dark".
   */
  function Toggle(s: string): (r: string)
    ensures IsValid(r)
    ensures r != s
    ensures r == Light <==> s == Dark
    ensures r == Dark <==> s != Dark
  {
    if s == Dark then Light else Dark
  }

  /** The shared context's handler, assumed to overwrite the theme and nothing else. */
  function SwitchTheme(st: State, next: string): (r: State)
    ensures r.theme == next
    ensures r.storage == st.storage
  {
    st.(theme := next)
  }

  /** The checkbox's change handler: hand the toggled theme to the context. */
  function OnSwitchChange(st: State): (r: State)
    ensures r.theme != st.theme
    ensures IsValid(r.theme)
    ensures st.theme == Dark <==> r.theme == Light
    ensures r.storage == st.storage
  {
    SwitchTheme(st, Toggle(st.theme))
  }

  /** The effect body: store the current theme under `StorageKey`. */
  function Persist(st: State): (r: State)
    ensures r.theme == st.theme
    ensures StorageKey in r.storage && r.storage[StorageKey] == st.theme
    ensures r.storage.Keys == st.storage.Keys + {StorageKey}
    ensures forall k :: k in st.storage && k != StorageKey ==> r.storage[k] == st.storage[k]
  {
    st.(storage := st.storage[StorageKey := st.theme])
  }

  /** Storage holds the theme currently shown. */
  predicate Synced(st: State) {
    StorageKey in st.storage && st.storage[StorageKey] == st.theme
  }

  /**
   The effect keyed on the theme, run after a render whose previous theme was
   `prev`: it writes storage only when the theme changed.
   */
  function Effect(prev: string, st: State): (r: State)
    ensures r.theme == st.theme
    ensures st.theme != prev ==> Synced(r)
    ensures st.theme == prev ==> r == st
  {
    if st.theme != prev then Persist(st) else st
  }

  /**
   One activation of the switch: the change handler, then the effect, which
   always runs because the handler always changes the theme (`ActivateIsEffect`).
   */
  function Activate(st: State): (r: State)
    ensures r.theme == Toggle(st.theme)
    ensures Synced(r)
    ensures r.storage == st.storage[StorageKey := r.theme]
  {
    Persist(OnSwitchChange(st))
  }

  /** The state after `n` activations of the switch. */
  function Run(st: State, n: nat): State
    decreases n
  {
    if n == 0 then st else Activate(Run(st, n - 1))
  }

  /**
   A page session: the effect's unconditional run after the first render,
   then `n` activations of the switch.
   */
  function Session(st0: State, n: nat): State {
    Run(Persist(st0), n)
  }

  /** Toggling a valid theme twice gives it back. */
  lemma ToggleInvolutive(s: string)
    requires IsValid(s)
    ensures Toggle(Toggle(s)) == s
  {
  }

  /** On the two names, the string toggle is the enumeration's `Flip`. */
  lemma ToggleIsFlip(t: ThemeName)
    ensures Toggle(Name(t)) == Name(Flip(t))
  {
  }

  /**
   A click leaves the palette roles exchanged, from any theme string: from
   "dark" to light, and from "light" or an unrecognised string to dark.
   */
  lemma ToggleSwapsPalette(s: string)
    ensures ResolvePalette(Toggle(s)) == Swap(ResolvePalette(s))
    ensures ResolvePalette(Toggle(s)) != ResolvePalette(s)
  {
    DarkIsSwappedLight();
  }

  /** Running the effect again without a theme change writes nothing new. */
  lemma PersistIdempotent(st: State)
    ensures Persist(Persist(st)) == Persist(st)
  {
  }

  /** The effect leaves storage in step with the theme, and a synced state is its own fixpoint. */
  lemma PersistSyncs(st: State)
    ensures Synced(Persist(st))
    ensures Synced(st) ==> Persist(st) == st
  {
  }

  /**
   After `n` activations: odd counts show the toggled theme, even positive
   counts show the doubly toggled one (the start itself when it was valid),
   storage holds the shown theme, and no other key was touched.
   */
  lemma {:induction false} RunAlternates(st: State, n: nat)
    ensures n % 2 == 1 ==> Run(st, n).theme == Toggle(st.theme)
    ensures n % 2 == 0 && n > 0 ==> Run(st, n).theme == Toggle(Toggle(st.theme))
    ensures IsValid(st.theme) && n % 2 == 0 ==> Run(st, n).theme == st.theme
    ensures n > 0 ==> IsValid(Run(st, n).theme) && Synced(Run(st, n))
    ensures n > 0 ==> Run(st, n).storage == st.storage[StorageKey := Run(st, n).theme]
    ensures n == 0 ==> Run(st, n) == st
  {
    if n > 0 {
      RunAlternates(st, n - 1);
      var prev := Run(st, n - 1);
      if n - 1 > 0 {
        ToggleInvolutive(Toggle(st.theme));
        assert prev.storage == st.storage[StorageKey := prev.theme];
      }
      if IsValid(st.theme) {
        ToggleInvolutive(st.theme);
      }
    }
  }

  /** A click followed by the theme-keyed effect is exactly `Activate`: the guard always passes. */
  lemma ActivateIsEffect(st: State)
    ensures Activate(st) == Effect(st.theme, OnSwitchChange(st))
  {
  }

  /**
   Throughout a session storage is in step with the shown theme, the shown
   theme alternates with the number of clicks, and no storage key other than
   "theme" ever differs from the start.
   */
  lemma {:induction false} SessionSynced(st0: State, n: nat)
    ensures Synced(Session(st0, n))
    ensures Session(st0, n).storage == st0.storage[StorageKey := Session(st0, n).theme]
    ensures n % 2 == 0 && IsValid(st0.theme) ==> Session(st0, n).theme == st0.theme
    ensures n % 2 == 1 ==> Session(st0, n).theme == Toggle(st0.theme)
  {
    var mounted := Persist(st0);
    PersistSyncs(st0);
    RunAlternates(mounted, n);
    if n > 0 {
      assert mounted.storage[StorageKey := Session(st0, n).theme]
          == st0.storage[StorageKey := Session(st0, n).theme];
    }
  }
}
