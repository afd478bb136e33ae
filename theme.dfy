/**
 * Theme selection and style-token publication: the current theme name, a setter guarded
 * by the theme map that writes through to storage under "clinic-theme", a startup restore,
 * and the effect that publishes the six tokens of the current theme as CSS custom
 * properties on the document root.
 */
module ThemeSelection {
  import opened Wrappers
  import opened ClinicConfig
  import Preference
  import Storage

  /** The storage key the theme choice is kept under. */
  const ThemeSlot := "clinic-theme"

  /** The six custom properties publication writes, in the order it writes them. */
  const TokenNames: seq<string> :=
    ["--color-primary", "--color-secondary", "--color-background", "--color-text", "--color-danger", "--font-family"]

  /** The six sequential `setProperty` writes for one theme record, over any prior style. */
  function Publish(style: map<string, string>, th: Theme): (r: map<string, string>)
    ensures r.Keys == style.Keys + (set name | name in TokenNames)
  {
    style["--color-primary" := th.primary]
         ["--color-secondary" := th.secondary]
         ["--color-background" := th.background]
         ["--color-text" := th.text]
         ["--color-danger" := th.danger]
         ["--font-family" := th.font]
  }

  /** The theme the six published properties describe, if all six are present. */
  function PublishedTheme(style: map<string, string>): (r: Option<Theme>)
    ensures r.Some? <==> forall name :: name in TokenNames ==> name in style
  {
    if "--color-primary" in style && "--color-secondary" in style && "--color-background" in style &&
       "--color-text" in style && "--color-danger" in style && "--font-family" in style
    then Some(Theme(style["--color-primary"], style["--color-secondary"], style["--color-background"],
                    style["--color-text"], style["--color-danger"], style["--font-family"]))
    else None
  }

  /**
   * Publication is total: whatever the style held before, afterwards the six properties
   * describe exactly the published theme, never a mixture of two themes.
   */
  lemma PublishIsTotal(style: map<string, string>, th: Theme)
    ensures PublishedTheme(Publish(style, th)) == Some(th)
  {
  }

  /** A later publication replaces every token of an earlier one. */
  lemma PublishOverridesEarlier(style: map<string, string>, earlier: Theme, later: Theme)
    ensures Publish(Publish(style, earlier), later) == Publish(style, later)
  {
  }

  /** Publication leaves every property other than the six tokens alone. */
  lemma PublishLeavesOtherProperties(style: map<string, string>, th: Theme, name: string)
    requires name !in TokenNames
    ensures name in Publish(style, th) <==> name in style
    ensures name in style ==> Publish(style, th)[name] == style[name]
  {
  }

  /** The names the setter and the restore accept: the keys of the theme map. */
  function Allowed(c: Clinic): (r: set<string>)
    ensures forall name :: name in r <==> name in c.themes
  {
    c.themes.Keys
  }

  /**
   * Property names every plain JavaScript object inherits from `Object.prototype`; looking
   * one of them up in the theme record yields a truthy value although it is not a theme.
   */
  const InheritedNames: set<string> := {
    "constructor", "__proto__", "hasOwnProperty", "isPrototypeOf", "propertyIsEnumerable",
    "toLocaleString", "toString", "valueOf", "__defineGetter__", "__defineSetter__",
    "__lookupGetter__", "__lookupSetter__"
  }

  /** The names the guard `themes[themeName]` (a truthiness test) lets through as written. */
  function AllowedAsWritten(c: Clinic): (r: set<string>)
    ensures Allowed(c) <= r
  {
    c.themes.Keys + InheritedNames
  }

  /**
   * As written, the guard admits "constructor", which is no theme of the dataset, and the
   * setter then makes it current, leaving nothing in the theme map to publish.
   */
  lemma AsWrittenGuardAdmitsNonTheme(s: Preference.Selection)
    ensures "constructor" in AllowedAsWritten(ClinicData) && "constructor" !in ClinicData.themes
    ensures Preference.Choose(s, ThemeSlot, "constructor", AllowedAsWritten(ClinicData)).current !in ClinicData.themes
  {
    assert ClinicData.themes.Keys == {"trust-light", "healing-green", "royal-care"};
  }

  /** With the corrected guard, the current theme is always a key of the theme map. */
  lemma GuardKeepsThemeKnown(c: Clinic, s: Preference.Selection, name: string)
    requires s.current in c.themes
    ensures Preference.Choose(s, ThemeSlot, name, Allowed(c)).current in c.themes
    ensures Preference.Restore(s, ThemeSlot, Allowed(c)).current in c.themes
  {
    Preference.ChooseKeepsAllowed(s, ThemeSlot, name, Allowed(c));
    Preference.RestoreKeepsAllowed(s, ThemeSlot, Allowed(c));
  }

  /** The setter accepts a theme of the map even when the demo list does not offer it. */
  lemma UnlistedThemeAccepted(c: Clinic, s: Preference.Selection, name: string)
    requires name in c.themes && name !in c.colorThemesDemo
    ensures Preference.Choose(s, ThemeSlot, name, Allowed(c)).current == name
  {
  }

  /** Every theme the picker offers is accepted by the setter. */
  lemma DemoThemesSettable(c: Clinic, s: Preference.Selection, i: int)
    requires WellFormed(c) && 0 <= i < |c.colorThemesDemo|
    ensures Preference.Choose(s, ThemeSlot, c.colorThemesDemo[i], Allowed(c)).current == c.colorThemesDemo[i]
    ensures Preference.Choose(s, ThemeSlot, c.colorThemesDemo[i], Allowed(c)).store[ThemeSlot] == c.colorThemesDemo[i]
  {
  }

  /** An unknown theme name changes neither the current theme nor storage. */
  lemma UnknownThemeIgnored(s: Preference.Selection)
    ensures Preference.Choose(s, ThemeSlot, "unknown-theme", Allowed(ClinicData)) == s
  {
    assert ClinicData.themes.Keys == {"trust-light", "healing-green", "royal-care"};
  }

  /** The document root's inline style, as a map from property name to value. */
  class DocumentStyle {
    var properties: map<string, string>

    constructor ()
      ensures properties == map[]
    {
      properties := map[];
    }

    method SetProperty(name: string, value: string)
      modifies this
      ensures properties == old(properties)[name := value]
    {
      properties := properties[name := value];
    }
  }

  /** The theme provider: the current theme name over a shared storage area and the root style. */
  class ThemeProvider {
    const config: Clinic
    const storage: Storage.LocalStorage
    const root: DocumentStyle
    var current: string

    /** The current name always has a record in the theme map. */
    ghost predicate Valid()
      reads this
    {
      current in config.themes
    }

    /** The provider's current name together with the storage contents. */
    function Snapshot(): Preference.Selection
      reads this, storage
    {
      Preference.Selection(current, storage.entries)
    }

    /** Mounting starts from the configured theme (the publish effect needs it to exist). */
    constructor (config: Clinic, storage: Storage.LocalStorage, root: DocumentStyle)
      requires config.colorTheme in config.themes
      ensures Valid()
      ensures this.config == config && this.storage == storage && this.root == root
      ensures current == config.colorTheme
    {
      this.config := config;
      this.storage := storage;
      this.root := root;
      current := config.colorTheme;
    }

    /** `setTheme`: a key of the theme map becomes current and is saved; anything else is ignored. */
    method SetTheme(name: string)
      requires Valid()
      modifies this, storage
      ensures Valid()
      ensures Snapshot() == Preference.Choose(old(Snapshot()), ThemeSlot, name, Allowed(config))
    {
      if name in config.themes {
        current := name;
        storage.SetItem(ThemeSlot, name);
      }
    }

    /** The mount effect: adopt the saved name only if it is non-empty and a key of the theme map. */
    method RestoreSaved()
      requires Valid()
      modifies this
      ensures Valid()
      ensures Snapshot() == Preference.Restore(old(Snapshot()), ThemeSlot, Allowed(config))
    {
      var saved := storage.GetItem(ThemeSlot);
      if saved.Some? && saved.value != "" && saved.value in config.themes {
        current := saved.value;
      }
    }

    /** The publish effect: six writes, all taken from the one record of the current theme. */
    method PublishTokens()
      requires Valid()
      modifies root
      ensures root.properties == Publish(old(root.properties), config.themes[current])
      ensures PublishedTheme(root.properties) == Some(CurrentTheme())
    {
      var th := config.themes[current];
      root.SetProperty("--color-primary", th.primary);
      root.SetProperty("--color-secondary", th.secondary);
      root.SetProperty("--color-background", th.background);
      root.SetProperty("--color-text", th.text);
      root.SetProperty("--color-danger", th.danger);
      root.SetProperty("--font-family", th.font);
      PublishIsTotal(old(root.properties), th);
    }

    /** The exposed `theme`: the record of the current name, complete in a well-formed dataset. */
    function CurrentTheme(): (th: Theme)
      reads this
      requires Valid()
      ensures th == config.themes[current]
      ensures WellFormed(config) ==> ThemeComplete(th)
    {
      config.themes[current]
    }

    /** `availableThemes`: the demo list, in its order; each entry is accepted by the setter. */
    function AvailableThemes(): (r: seq<string>)
      ensures r == config.colorThemesDemo
      ensures WellFormed(config) ==> forall i :: 0 <= i < |r| ==> r[i] in Allowed(config)
    {
      config.colorThemesDemo
    }
  }
}
