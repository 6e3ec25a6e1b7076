/**
 * RuntimeObjectDetail.swift: the header screen's generation switches, which
 * it keeps per scene, the options it hands to the header generator, and the
 * toolbar buttons that step the code font size within the preferences' bounds.
 */
module RuntimeObjectDetails {
  import Preferences

  /** The five `@SceneStorage` switches of the header screen. */
  datatype DetailToggles = DetailToggles(
    stripProtocolConformance: bool,
    stripOverrides: bool,
    stripDuplicates: bool,
    stripSynthesized: bool,
    addSymbolImageComments: bool)

  /** The switches' values in a fresh scene. */
  const DefaultToggles := DetailToggles(false, false, true, true, false)

  /** `CDGenerationOptions`, as far as the screen sets it. */
  datatype GenerationOptions = GenerationOptions(
    stripProtocolConformance: bool,
    stripOverrides: bool,
    stripDuplicates: bool,
    stripSynthesized: bool,
    stripCtorMethod: bool,
    stripDtorMethod: bool,
    addSymbolImageComments: bool)

  /** The five switches a set of options was built from. */
  function TogglesOf(o: GenerationOptions): DetailToggles {
    DetailToggles(o.stripProtocolConformance, o.stripOverrides, o.stripDuplicates,
                  o.stripSynthesized, o.addSymbolImageComments)
  }

  /**
   * `generationOptions`: constructors and destructors are always stripped,
   * and the five switches pass through unchanged.
   */
  function GenerationOptionsFor(t: DetailToggles): (o: GenerationOptions)
    ensures o.stripCtorMethod && o.stripDtorMethod
    ensures TogglesOf(o) == t
  {
    GenerationOptions(t.stripProtocolConformance, t.stripOverrides, t.stripDuplicates,
                      t.stripSynthesized, true, true, t.addSymbolImageComments)
  }

  /** Different switch settings give different options. */
  lemma GenerationOptionsInjective(s: DetailToggles, t: DetailToggles)
    ensures GenerationOptionsFor(s) == GenerationOptionsFor(t) <==> s == t
  {
    if GenerationOptionsFor(s) == GenerationOptionsFor(t) {
      assert s == TogglesOf(GenerationOptionsFor(s));
    }
  }

  /** A fresh scene strips duplicates and synthesized members, and nothing else optional. */
  lemma DefaultGenerationOptions()
    ensures var o := GenerationOptionsFor(DefaultToggles);
      !o.stripProtocolConformance && !o.stripOverrides && o.stripDuplicates &&
      o.stripSynthesized && o.stripCtorMethod && o.stripDtorMethod && !o.addSymbolImageComments
  {
  }

  /** The size after "Smaller": one less, unless already at or below the minimum. */
  function SmallerSize(size: int, min: int): (r: int)
    ensures size > min ==> r == size - 1
    ensures size <= min ==> r == size
  {
    if size > min then size - 1 else size
  }

  /** The size after "Larger": one more, unless already at or above the maximum. */
  function LargerSize(size: int, max: int): (r: int)
    ensures size < max ==> r == size + 1
    ensures size >= max ==> r == size
  {
    if size < max then size + 1 else size
  }

  /** A size within the bounds stays within them under either button. */
  lemma SizeStaysInBounds(size: int, min: int, max: int)
    requires min <= size <= max
    ensures min <= SmallerSize(size, min) <= max
    ensures min <= LargerSize(size, max) <= max
  {
  }

  /** Inside the bounds, each button undoes the other. */
  lemma ButtonsUndoEachOther(size: int, min: int, max: int)
    requires min <= size <= max
    ensures size > min ==> LargerSize(SmallerSize(size, min), max) == size
    ensures size < max ==> SmallerSize(LargerSize(size, max), min) == size
  {
  }

  /** The buttons stop at the bounds: pressing at a bound changes nothing. */
  lemma ButtonsStopAtBounds(min: int, max: int)
    ensures SmallerSize(min, min) == min
    ensures LargerSize(max, max) == max
  {
  }

  /** The preferences' font size lies within their bounds. */
  predicate FontSizeInBounds(prefs: Preferences.CodePreferences)
    reads prefs
  {
    prefs.minFontSize <= prefs.fontSize <= prefs.maxFontSize
  }

  /** The "Smaller" button's action. */
  method Smaller(prefs: Preferences.CodePreferences)
    modifies prefs
    ensures prefs.fontSize == SmallerSize(old(prefs.fontSize), prefs.minFontSize)
    ensures old(FontSizeInBounds(prefs)) ==> FontSizeInBounds(prefs)
    ensures prefs.store == old(prefs.store) && prefs.selectedTheme == old(prefs.selectedTheme)
    ensures prefs.hideLineNumbers == old(prefs.hideLineNumbers) && prefs.fontName == old(prefs.fontName)
  {
    if !(prefs.fontSize > prefs.minFontSize) {
      return;
    }
    prefs.fontSize := prefs.fontSize - 1;
  }

  /** The "Larger" button's action. */
  method Larger(prefs: Preferences.CodePreferences)
    modifies prefs
    ensures prefs.fontSize == LargerSize(old(prefs.fontSize), prefs.maxFontSize)
    ensures old(FontSizeInBounds(prefs)) ==> FontSizeInBounds(prefs)
    ensures prefs.store == old(prefs.store) && prefs.selectedTheme == old(prefs.selectedTheme)
    ensures prefs.hideLineNumbers == old(prefs.hideLineNumbers) && prefs.fontName == old(prefs.fontName)
  {
    if !(prefs.fontSize < prefs.maxFontSize) {
      return;
    }
    prefs.fontSize := prefs.fontSize + 1;
  }

  /** Preferences built from an empty store start at 16 points, inside the bounds 8 to 24. */
  lemma DefaultFontSizeInBounds()
    ensures Preferences.MinFontSize == 8 && Preferences.MaxFontSize == 24
    ensures Preferences.MinFontSize <= Preferences.DefaultFontSize == 16 <= Preferences.MaxFontSize
  {
  }
}
