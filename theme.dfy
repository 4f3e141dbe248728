/** The light/dark theme: chosen once on mount from the saved value or the
    system preference, flipped by the toggle, and after every change mirrored
    in the root element's "dark" class and in storage. */
module Theme {
  import opened Wrappers
  import opened JsSemantics

  const ThemeKey := "weatherAppTheme"
  const Light := "light"
  const Dark := "dark"

  /** The theme on mount: a non-empty saved value as it is (it is not
      checked against the two names), else the system preference. */
  function InitialTheme(saved: Option<string>, prefersDark: bool): (t: string)
    ensures saved.Some? && saved.value != "" ==> t == saved.value
    ensures (saved.None? || saved.value == "") ==> (t == Dark <==> prefersDark) && (t == Light || t == Dark)
  {
    if saved.Some? && Truthy(saved.value) then saved.value
    else if prefersDark then Dark else Light
  }

  /** "light" becomes "dark"; anything else, an unchecked saved value
      included, becomes "light". */
  function Toggled(t: string): (r: string)
    ensures r == Light || r == Dark
    ensures r == Dark <==> t == Light
    ensures (t == Light || t == Dark) ==> r != t
  {
    if t == Light then Dark else Light
  }

  /** Two toggles restore either valid theme; from any other value they end on "dark". */
  lemma ToggleTwice(t: string)
    ensures (t == Light || t == Dark) ==> Toggled(Toggled(t)) == t
    ensures t != Light && t != Dark ==> Toggled(Toggled(t)) == Dark
  {
  }

  function SavedTheme(storage: map<string, string>): Option<string> {
    if ThemeKey in storage then Some(storage[ThemeKey]) else None
  }

  class ThemeHook {
    var theme: string
    var mounted: bool
    /** The class list of the document's root element. */
    var rootClasses: set<string>
    var storage: map<string, string>

    /** The root carries "dark" exactly for the dark theme, and storage holds the theme. */
    ghost predicate Synced()
      reads this
    {
      (Dark in rootClasses <==> theme == Dark)
      && ThemeKey in storage && storage[ThemeKey] == theme
    }

    constructor (saved: map<string, string>, classes: set<string>)
      ensures theme == Light && !mounted
      ensures storage == saved && rootClasses == classes
    {
      theme := Light;
      mounted := false;
      storage := saved;
      rootClasses := classes;
    }

    /** `applyTheme`: add or remove "dark" on the root and store the theme. */
    method ApplyTheme(newTheme: string)
      modifies this
      ensures rootClasses == if newTheme == Dark then old(rootClasses) + {Dark} else old(rootClasses) - {Dark}
      ensures storage == old(storage)[ThemeKey := newTheme]
      ensures theme == old(theme) && mounted == old(mounted)
    {
      if newTheme == Dark {
        rootClasses := rootClasses + {Dark};
      } else {
        rootClasses := rootClasses - {Dark};
      }
      storage := storage[ThemeKey := newTheme];
    }

    /** The mount effect: pick the initial theme, apply it, mark mounted. */
    method Mount(prefersDark: bool)
      modifies this
      ensures theme == InitialTheme(SavedTheme(old(storage)), prefersDark)
      ensures mounted && Synced()
      ensures rootClasses - {Dark} == old(rootClasses) - {Dark}
      ensures forall k :: k != ThemeKey ==> (k in storage <==> k in old(storage))
      ensures forall k :: k != ThemeKey && k in storage ==> storage[k] == old(storage)[k]
    {
      var saved := SavedTheme(storage);
      if saved.Some? && Truthy(saved.value) {
        theme := saved.value;
        ApplyTheme(saved.value);
      } else {
        var initial := if prefersDark then Dark else Light;
        theme := initial;
        ApplyTheme(initial);
      }
      mounted := true;
    }

    /** `toggleTheme`: flip, then apply; root and storage follow. */
    method ToggleTheme()
      modifies this
      ensures theme == Toggled(old(theme))
      ensures Synced()
      ensures mounted == old(mounted)
      ensures rootClasses - {Dark} == old(rootClasses) - {Dark}
      ensures storage == old(storage)[ThemeKey := theme]
    {
      var next := if theme == Light then Dark else Light;
      theme := next;
      ApplyTheme(next);
    }
  }

  /** Toggling a mounted hook twice from a valid theme returns to it, with
      root class and storage still in agreement. */
  method ToggleTwiceRestores(hook: ThemeHook)
    requires hook.theme == Light || hook.theme == Dark
    modifies hook
    ensures hook.theme == old(hook.theme) && hook.Synced()
    ensures hook.storage == old(hook.storage)[ThemeKey := hook.theme]
    ensures hook.rootClasses - {Dark} == old(hook.rootClasses) - {Dark}
  {
    hook.ToggleTheme();
    hook.ToggleTheme();
    ToggleTwice(old(hook.theme));
  }
}
