/**
 * The two persisted preferences of the page: whether motion effects run and
 * which colour theme is shown. The browser's local storage is a map from
 * keys to strings; the page reads it once at load and writes one key on
 * every toggle.
 */
module Preferences {

  /** The browser's local storage: string keys to string values. */
  type Store = map<string, string>

  const MotionKey: string := "motionEnabled"
  const ThemeKey: string := "theme"
  const Dark: string := "dark"
  const Light: string := "light"

  /** JavaScript's `store.getItem(key)`: the value, or None where null is returned. */
  datatype Option<T> = None | Some(value: T)

  function GetItem(store: Store, key: string): (r: Option<string>)
    ensures r.Some? <==> key in store
    ensures r.Some? ==> r.value == store[key]
  {
    if key in store then Some(store[key]) else None
  }

  /**
   * The motion flag at load: motion is on unless the stored value is exactly
   * the string "false"; a missing key or any other value leaves it on.
   */
  function MotionEnabled(store: Store): (enabled: bool)
    ensures !enabled <==> MotionKey in store && store[MotionKey] == "false"
  {
    GetItem(store, MotionKey) != Some("false")
  }

  /** How `setItem` stores a boolean: its string conversion. */
  function BoolString(b: bool): (s: string)
    ensures s == "false" <==> !b
  {
    if b then "true" else "false"
  }

  /** Storing the flag and loading it again gives the flag back. */
  lemma MotionRoundTrip(store: Store, b: bool)
    ensures MotionEnabled(store[MotionKey := BoolString(b)]) == b
  {
  }

  /** The theme at load: the stored value, or "dark" when it is missing or empty. */
  function InitialTheme(store: Store): (theme: string)
    ensures theme != ""
    ensures ThemeKey !in store || store[ThemeKey] == "" ==> theme == Dark
    ensures ThemeKey in store && store[ThemeKey] != "" ==> theme == store[ThemeKey]
  {
    match GetItem(store, ThemeKey)
    case Some(t) => if t == "" then Dark else t
    case None => Dark
  }

  /** The theme a click switches to: light from dark, dark from anything else. */
  function FlipTheme(theme: string): (next: string)
    ensures next == Light <==> theme == Dark
    ensures next == Dark <==> theme != Dark
  {
    if theme == Dark then Light else Dark
  }

  /** On the two known themes a click is undone by the next one. */
  lemma FlipInvolution(theme: string)
    requires theme == Dark || theme == Light
    ensures FlipTheme(FlipTheme(theme)) == theme
  {
  }

  /**
   * A theme stored by something else (neither dark nor light) is replaced by
   * dark on the first click; from then on the clicks alternate.
   */
  lemma FlipSettles(theme: string)
    ensures FlipTheme(theme) == Dark || FlipTheme(theme) == Light
    ensures FlipTheme(FlipTheme(FlipTheme(theme))) == FlipTheme(theme)
    ensures theme != Dark && theme != Light ==> FlipTheme(theme) == Dark
  {
  }

  /** Storing a theme the page chose and loading it again gives the same theme. */
  lemma ThemeRoundTrip(store: Store, theme: string)
    requires theme != ""
    ensures InitialTheme(store[ThemeKey := theme]) == theme
  {
  }

  /** The icon class of the theme button after a click: moon for dark, sun otherwise. */
  function ThemeIcon(theme: string): (icon: string)
    ensures icon == "fas fa-moon" <==> theme == Dark
    ensures icon == "fas fa-sun" <==> theme != Dark
  {
    if theme == Dark then "fas fa-moon" else "fas fa-sun"
  }

  /** The icon class of the motion button after a click: an eye, struck through when off. */
  function MotionIcon(enabled: bool): (icon: string)
    ensures icon == "fas fa-eye" <==> enabled
    ensures icon == "fas fa-eye-slash" <==> !enabled
  {
    if enabled then "fas fa-eye" else "fas fa-eye-slash"
  }

  /**
   * The particle background is started at load exactly when the page has a
   * canvas and the stored motion flag is not "false".
   */
  function ParticlesStart(hasCanvas: bool, store: Store): (start: bool)
    ensures start <==> hasCanvas && !(MotionKey in store && store[MotionKey] == "false")
  {
    hasCanvas && MotionEnabled(store)
  }

  /**
   * The page's preference state: the storage, the motion flag, the theme
   * attribute of the document, the two button icons and whether the particle
   * background was started.
   */
  class Page {
    var store: Store
    var motionEnabled: bool
    var theme: string
    var themeIcon: string
    var motionIcon: string
    var particlesRunning: bool

    /** Reloading the page from the storage gives the flag and the theme shown now. */
    ghost predicate Persisted()
      reads this
    {
      MotionEnabled(store) == motionEnabled && InitialTheme(store) == theme
    }

    /**
     * Page load: both preferences are read from the storage; the icons are
     * those of the markup until the first click.
     */
    constructor (saved: Store, hasCanvas: bool, markupThemeIcon: string, markupMotionIcon: string)
      ensures store == saved
      ensures motionEnabled == MotionEnabled(saved) && theme == InitialTheme(saved)
      ensures themeIcon == markupThemeIcon && motionIcon == markupMotionIcon
      ensures particlesRunning == ParticlesStart(hasCanvas, saved)
      ensures Persisted()
    {
      store := saved;
      var enabled := GetItem(saved, MotionKey) != Some("false");
      motionEnabled := enabled;
      var current := GetItem(saved, ThemeKey);
      theme := if current.Some? && current.value != "" then current.value else "dark";
      themeIcon := markupThemeIcon;
      motionIcon := markupMotionIcon;
      particlesRunning := hasCanvas && enabled;
    }

    /**
     * The motion button: flip the flag, store it, update the icon. The
     * particle background is neither started nor stopped by it.
     */
    method ToggleMotion()
      modifies this
      ensures motionEnabled == !old(motionEnabled)
      ensures store == old(store)[MotionKey := BoolString(motionEnabled)]
      ensures motionIcon == MotionIcon(motionEnabled)
      ensures theme == old(theme) && themeIcon == old(themeIcon)
      ensures particlesRunning == old(particlesRunning)
      ensures old(Persisted()) ==> Persisted()
    {
      motionEnabled := !motionEnabled;
      store := store[MotionKey := if motionEnabled then "true" else "false"];
      motionIcon := if motionEnabled then "fas fa-eye" else "fas fa-eye-slash";
      MotionRoundTrip(old(store), motionEnabled);
    }

    /** The theme button: flip the theme attribute, store it, update the icon. */
    method ToggleTheme()
      modifies this
      ensures theme == FlipTheme(old(theme))
      ensures store == old(store)[ThemeKey := theme]
      ensures themeIcon == ThemeIcon(theme)
      ensures motionEnabled == old(motionEnabled) && motionIcon == old(motionIcon)
      ensures particlesRunning == old(particlesRunning)
      ensures old(Persisted()) ==> Persisted()
    {
      var newTheme := if theme == "dark" then "light" else "dark";
      theme := newTheme;
      store := store[ThemeKey := newTheme];
      themeIcon := if newTheme == "dark" then "fas fa-moon" else "fas fa-sun";
      ThemeRoundTrip(old(store), newTheme);
    }
  }
}
