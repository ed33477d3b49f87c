/**
 * The colour theme (`ThemeProvider.tsx`): chosen at start from the stored
 * preference or the system's, then flipped by `toggleTheme`.
 */
module ThemeProvider {
  import opened Wrappers

  /** The theme is always one of these two. */
  datatype Theme = Light | Dark

  /** The stored and applied name of a theme. */
  function ThemeName(theme: Theme): (name: string)
    ensures name == "light" <==> theme == Light
    ensures name == "dark" <==> theme == Dark
  {
    match theme
    case Light => "light"
    case Dark => "dark"
  }

  /**
   * The initial theme: the stored value when it names a theme; otherwise dark
   * exactly when the system prefers a dark scheme. The storage read and the
   * media query become the two parameters.
   */
  function InitialTheme(stored: Option<string>, prefersDark: bool): (theme: Theme)
    ensures stored == Some("light") ==> theme == Light
    ensures stored == Some("dark") ==> theme == Dark
    ensures stored != Some("light") && stored != Some("dark") ==> (theme == Dark <==> prefersDark)
  {
    if stored == Some("light") then Light
    else if stored == Some("dark") then Dark
    else if prefersDark then Dark
    else Light
  }

  /** The theme the provider writes to storage is the theme it reads back on the next start. */
  lemma {:induction false} StoredThemeReadsBack(theme: Theme, prefersDark: bool)
    ensures InitialTheme(Some(ThemeName(theme)), prefersDark) == theme
  {
    match theme
    case Light =>
    case Dark =>
  }

  /** `prev === "light" ? "dark" : "light"` */
  function Flip(theme: Theme): (flipped: Theme)
    ensures flipped != theme
  {
    if theme == Light then Dark else Light
  }

  /** Toggling twice is the identity. */
  lemma FlipTwice(theme: Theme)
    ensures Flip(Flip(theme)) == theme
  {
  }

  class ThemeState {
    var theme: Theme

    constructor(stored: Option<string>, prefersDark: bool)
      ensures theme == InitialTheme(stored, prefersDark)
    {
      theme := InitialTheme(stored, prefersDark);
    }

    /** `toggleTheme` */
    method ToggleTheme()
      modifies this
      ensures theme == Flip(old(theme))
    {
      if theme == Light {
        theme := Dark;
      } else {
        theme := Light;
      }
    }
  }
}
