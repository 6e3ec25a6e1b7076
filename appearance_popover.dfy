/**
 * AppearancePopover.swift: two scheme buttons ("light", "dark") and a
 * "System" switch, all reading and writing the settings' preferred colour
 * scheme string.
 */
module AppearancePopover {
  import opened Common
  import opened Strings
  import opened Settings

  /** The "System" switch's getter: on exactly when the stored scheme is "nil". */
  function SystemSchemeOn(s: AppSettings): (r: bool)
    ensures r ==> s.ColorScheme().None?
  {
    DefaultsFollowSystem();
    s.preferredColorScheme == SystemSchemeName
  }

  /** The scheme string the "System" switch's setter stores: "nil" when on, "dark" when off. */
  function SystemSchemeValue(on: bool): (r: string)
    ensures on <==> r == SystemSchemeName
    ensures !on ==> r == "dark"
  {
    if on then SystemSchemeName else "dark"
  }

  /** Whether the button for `scheme` shows its checkmark. */
  function IsChecked(s: AppSettings, scheme: string): (r: bool)
    ensures r && scheme != SystemSchemeName ==> !SystemSchemeOn(s)
  {
    s.preferredColorScheme == scheme
  }

  /** Reading the switch after setting it to `on` gives `on`. */
  lemma SystemSchemeReadsBack(s: AppSettings, on: bool)
    ensures SystemSchemeOn(s.(preferredColorScheme := SystemSchemeValue(on))) == on
  {
  }

  /** Turning the switch on follows the system; turning it off selects dark. */
  lemma SystemSchemeMeaning(s: AppSettings)
    ensures s.(preferredColorScheme := SystemSchemeValue(true)).ColorScheme().None?
    ensures s.(preferredColorScheme := SystemSchemeValue(false)).ColorScheme() == Some(Dark)
  {
    DefaultsFollowSystem();
    assert Lower("dark") == "dark";
  }

  /** After a scheme button is pressed, exactly that button is checked. */
  lemma PressedButtonIsChecked(s: AppSettings, scheme: string, other: string)
    ensures IsChecked(s.(preferredColorScheme := scheme), other) <==> other == scheme
  {
  }

  /** At most one of the two scheme buttons is checked, and neither while the switch is on. */
  lemma ChecksExclusive(s: AppSettings)
    ensures !(IsChecked(s, "light") && IsChecked(s, "dark"))
    ensures SystemSchemeOn(s) ==> !IsChecked(s, "light") && !IsChecked(s, "dark")
  {
  }

  /** The "System" switch's setter. */
  method SetSystemScheme(manager: SettingsManager, on: bool)
    modifies manager
    ensures manager.settings == old(manager.settings).(preferredColorScheme := SystemSchemeValue(on))
    ensures SystemSchemeOn(manager.settings) == on
    ensures manager.Valid()
  {
    manager.SetPreferredColorScheme(if on then SystemSchemeName else "dark");
  }

  /** A scheme button's action: stores its scheme. */
  method PressSchemeButton(manager: SettingsManager, scheme: string)
    modifies manager
    ensures manager.settings == old(manager.settings).(preferredColorScheme := scheme)
    ensures IsChecked(manager.settings, scheme)
    ensures manager.Valid()
  {
    manager.SetPreferredColorScheme(scheme);
  }
}
