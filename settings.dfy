/**
 * SettingsManager.swift: the app settings, kept as one encoded entry of the
 * preferences store. Every change of the settings is saved again; at start
 * the saved entry is used when it decodes, and the defaults otherwise.
 */
module Settings {
  import opened Common
  import opened Strings

  /** SwiftUI's `ColorScheme`. */
  datatype Scheme = Light | Dark

  /** The stored value that stands for "follow the system". */
  const SystemSchemeName := "nil"

  /** `AppSettings`. */
  datatype AppSettings = AppSettings(
    historyEnabled: bool,
    historyBadgeEnabled: bool,
    historyLimit: int,
    preferredColorScheme: string)
  {
    /**
     * `colorScheme()`: "light" and "dark", in any case, name a scheme; every
     * other string, "nil" among them, means the system's own.
     */
    function ColorScheme(): (r: Option<Scheme>)
      ensures r == Some(Light) <==> Lower(preferredColorScheme) == "light"
      ensures r == Some(Dark) <==> Lower(preferredColorScheme) == "dark"
      ensures r == None <==> Lower(preferredColorScheme) != "light" && Lower(preferredColorScheme) != "dark"
    {
      match Lower(preferredColorScheme)
      case "nil" => None
      case "light" => Some(Light)
      case "dark" => Some(Dark)
      case _ => None
    }
  }

  /** `registerDefaultSettings()`: the settings of a first start. */
  function DefaultSettings(): (s: AppSettings)
    ensures s.historyEnabled && s.historyBadgeEnabled
    ensures s.historyLimit == 0
    ensures s.preferredColorScheme == SystemSchemeName
  {
    AppSettings(true, true, 0, SystemSchemeName)
  }

  /** The default settings follow the system's colour scheme. */
  lemma DefaultsFollowSystem()
    ensures DefaultSettings().ColorScheme() == None
  {
    assert Lower(SystemSchemeName) == "nil";
  }

  /** The scheme names are read case-insensitively. */
  lemma SchemeIgnoresCase(s: AppSettings)
    ensures s.(preferredColorScheme := "Dark").ColorScheme() == Some(Dark)
    ensures s.(preferredColorScheme := "LIGHT").ColorScheme() == Some(Light)
    ensures s.(preferredColorScheme := "NIL").ColorScheme() == None
  {
    assert Lower("Dark") == "dark";
    assert Lower("LIGHT") == "light";
    assert Lower("NIL") == "nil";
  }

  /**
   * `SettingsManager`: the current settings and the store's "appSettings"
   * entry.
   */
  class SettingsManager {
    var settings: AppSettings
    /** The "appSettings" entry of the preferences store. */
    var saved: Stored<AppSettings>

    /** What is saved is what is current. */
    ghost predicate Valid()
      reads this
    {
      saved == Saved(settings)
    }

    /** `init()`: the saved settings when they decode; the defaults, saved, otherwise. */
    constructor (saved: Stored<AppSettings>)
      ensures saved.Saved? ==> settings == saved.value
      ensures !saved.Saved? ==> settings == DefaultSettings()
      ensures Valid()
    {
      if saved.Saved? {
        settings := saved.value;
        this.saved := saved;
      } else {
        settings := DefaultSettings();
        this.saved := Saved(DefaultSettings());
      }
    }

    /** Assigning `settings`, whose observer saves it. */
    method SetSettings(s: AppSettings)
      modifies this
      ensures settings == s
      ensures Valid()
    {
      settings := s;
      saved := Saved(settings);
    }

    /** `settings.preferredColorScheme = scheme`: one field changes and the whole is saved. */
    method SetPreferredColorScheme(scheme: string)
      modifies this
      ensures settings == old(settings).(preferredColorScheme := scheme)
      ensures Valid()
    {
      SetSettings(settings.(preferredColorScheme := scheme));
    }
  }
}
