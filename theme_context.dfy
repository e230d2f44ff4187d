/**
  The colour theme: "light" or "dark", applied to the document root (its
  `data-theme` attribute and its `dark` class) and kept in local storage under
  "nft-theme".

  The stored value is read back without validation, so the theme is modelled
  as a string: whatever non-empty text is stored becomes the theme.
 */
module ThemeContext {
  import opened Js
  import opened Browser

  /** The storage key of the theme setting. */
  const ThemeKey: string := "nft-theme"

  const Light: string := "light"
  const Dark: string := "dark"

  /** The theme `toggleTheme` switches to: "light" becomes "dark", anything
      else becomes "light". */
  function Toggled(theme: string): (r: string)
    ensures r == Light || r == Dark
    ensures r == Dark <==> theme == Light
  {
    if theme == Light then Dark else Light
  }

  /** On the two themes the toggle is its own inverse. */
  lemma ToggleTwice(theme: string)
    requires theme == Light || theme == Dark
    ensures Toggled(Toggled(theme)) == theme
    ensures Toggled(theme) != theme
  {
  }

  /** The theme chosen on mount: the stored value when present and non-empty,
      otherwise "light". */
  function InitialTheme(stored: Option<string>): (r: string)
    ensures r != ""
    ensures Truthy(stored) ==> r == stored.value
    ensures !Truthy(stored) ==> r == Light
  {
    if Truthy(stored) then stored.value else Light
  }

  /** After two toggles from any start the theme is "light" or "dark" again,
      whatever was stored. */
  lemma ToggleNormalises(theme: string)
    ensures Toggled(Toggled(theme)) == (if theme == Light then Light else Dark)
  {
  }

  class ThemeProvider {
    var theme: string
    const root: DocumentRoot
    const storage: LocalStorage

    constructor (root: DocumentRoot, storage: LocalStorage)
      ensures theme == Light && this.root == root && this.storage == storage
    {
      theme := Light;
      this.root := root;
      this.storage := storage;
    }

    /** The page shows and stores `t`: `data-theme` is `t`, the `dark` class
        is present exactly when `t` is "dark", and the stored theme is `t`. */
    predicate Applied(t: string)
      reads root, storage
    {
      && "data-theme" in root.attributes && root.attributes["data-theme"] == t
      && ("dark" in root.classes <==> t == Dark)
      && storage.GetItem(ThemeKey) == Some(t)
    }

    /** `applyTheme(t)`: writes `t` to the root and to storage; the theme
        field itself is untouched, and so are other attributes, classes and
        stored entries. */
    method ApplyTheme(t: string)
      modifies root, storage
      ensures Applied(t)
      ensures root.attributes == old(root.attributes)["data-theme" := t]
      ensures root.classes == (if t == Dark then old(root.classes) + {"dark"}
                               else old(root.classes) - {"dark"})
      ensures storage.items == old(storage.items)[ThemeKey := t]
    {
      root.SetAttribute("data-theme", t);
      if t == Dark {
        root.AddClass("dark");
      } else {
        root.RemoveClass("dark");
      }
      storage.SetItem(ThemeKey, t);
    }

    /** `setTheme(t)`: the theme becomes `t` and is applied. */
    method SetTheme(t: string)
      modifies this, root, storage
      ensures theme == t && Applied(t)
      ensures root.attributes == old(root.attributes)["data-theme" := t]
      ensures root.classes == (if t == Dark then old(root.classes) + {"dark"}
                               else old(root.classes) - {"dark"})
      ensures storage.items == old(storage.items)[ThemeKey := t]
    {
      theme := t;
      ApplyTheme(t);
    }

    /** `toggleTheme()`: sets the toggled theme. */
    method ToggleTheme()
      modifies this, root, storage
      ensures theme == Toggled(old(theme)) && Applied(theme)
      ensures root.attributes == old(root.attributes)["data-theme" := theme]
      ensures root.classes == (if theme == Dark then old(root.classes) + {"dark"}
                               else old(root.classes) - {"dark"})
      ensures storage.items == old(storage.items)[ThemeKey := theme]
    {
      SetTheme(Toggled(theme));
    }

    /** The mount effect: the theme becomes the stored one (or "light") and
        is applied, which writes it back to storage. */
    method Initialize()
      modifies this, root, storage
      ensures theme == InitialTheme(old(storage.GetItem(ThemeKey))) && Applied(theme)
      ensures root.attributes == old(root.attributes)["data-theme" := theme]
      ensures root.classes == (if theme == Dark then old(root.classes) + {"dark"}
                               else old(root.classes) - {"dark"})
      ensures storage.items == old(storage.items)[ThemeKey := theme]
    {
      var stored := storage.GetItem(ThemeKey);
      SetTheme(InitialTheme(stored));
    }
  }
}
