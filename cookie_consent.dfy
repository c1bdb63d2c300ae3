/**
 * The cookie-consent banner: four consent flags of which `essential` can
 * never be cleared, a banner and a settings panel that are shown or hidden,
 * and the stored choice under the key "cookie-consent".
 *
 * Browser storage is a map from keys to the preferences record; the JSON
 * serialisation in between is not modelled.
 */
module CookieConsent {
  import opened Wrappers

  datatype Preferences = Preferences(essential: bool, analytics: bool, marketing: bool, functional: bool)

  /** The keys of the preferences record, as passed to `handlePreferenceChange`. */
  datatype Category = Essential | Analytics | Marketing | Functional

  /** What is on screen while the component renders. */
  datatype Panel = MainBanner | SettingsPanel

  const ConsentKey: string := "cookie-consent"

  /** The initial state and what "Reject All" writes. */
  const EssentialOnly: Preferences := Preferences(true, false, false, false)

  /** What "Accept All" writes. */
  const AllAccepted: Preferences := Preferences(true, true, true, true)

  function Flag(p: Preferences, c: Category): bool
  {
    match c
    case Essential => p.essential
    case Analytics => p.analytics
    case Marketing => p.marketing
    case Functional => p.functional
  }

  /**
   * `handlePreferenceChange`: the essential flag is left alone; any other
   * category has exactly its own flag flipped.
   */
  function TogglePreference(p: Preferences, c: Category): (r: Preferences)
    ensures c == Essential ==> r == p
    ensures c != Essential ==> Flag(r, c) == !Flag(p, c)
    ensures forall d :: d != c ==> Flag(r, d) == Flag(p, d)
  {
    match c
    case Essential => p
    case Analytics => p.(analytics := !p.analytics)
    case Marketing => p.(marketing := !p.marketing)
    case Functional => p.(functional := !p.functional)
  }

  /** Two toggles of the same category restore the preferences. */
  lemma ToggleTwiceRestores(p: Preferences, c: Category)
    ensures TogglePreference(TogglePreference(p, c), c) == p
  {
  }

  /** No toggle can clear the essential flag. */
  lemma ToggleKeepsEssential(p: Preferences, c: Category)
    requires p.essential
    ensures TogglePreference(p, c).essential
  {
    assert Flag(TogglePreference(p, c), Essential) == Flag(p, Essential);
  }

  /** Every value that can reach the store keeps the essential flag set. */
  ghost predicate Storable(p: Preferences)
  {
    p.essential
  }

  class ConsentBanner {
    var preferences: Preferences
    var showBanner: bool
    var showSettings: bool
    /** The browser's local storage. */
    var store: map<string, Preferences>

    ghost predicate Valid()
      reads this
    {
      Storable(preferences)
    }

    /** First render: nothing shown, essential-only preferences, whatever the browser already stores. */
    constructor (stored: map<string, Preferences>)
      ensures Valid()
      ensures preferences == EssentialOnly && !showBanner && !showSettings && store == stored
    {
      preferences := EssentialOnly;
      showBanner := false;
      showSettings := false;
      store := stored;
    }

    /** The component renders nothing while the banner is hidden; otherwise the banner or the settings panel. */
    function View(): (v: Option<Panel>)
      reads this
      ensures v.None? <==> !showBanner
      ensures v == Some(SettingsPanel) <==> showBanner && showSettings
    {
      if !showBanner then None
      else if showSettings then Some(SettingsPanel)
      else Some(MainBanner)
    }

    /** The mount effect: show the banner exactly when no choice is stored yet. */
    method Mount()
      modifies this`showBanner
      ensures showBanner == (old(showBanner) || ConsentKey !in store)
    {
      if ConsentKey !in store {
        showBanner := true;
      }
    }

    /** "Accept All": every flag on, stored, everything hidden. */
    method AcceptAll()
      modifies this
      ensures Valid()
      ensures preferences == AllAccepted
      ensures store == old(store)[ConsentKey := AllAccepted]
      ensures !showBanner && !showSettings
    {
      preferences := AllAccepted;
      store := store[ConsentKey := preferences];
      showBanner := false;
      showSettings := false;
    }

    /** "Reject All": only the essential flag on, stored, everything hidden. */
    method RejectAll()
      modifies this
      ensures Valid()
      ensures preferences == EssentialOnly
      ensures store == old(store)[ConsentKey := EssentialOnly]
      ensures !showBanner && !showSettings
    {
      preferences := EssentialOnly;
      store := store[ConsentKey := preferences];
      showBanner := false;
      showSettings := false;
    }

    /** "Save Preferences": the current flags are stored verbatim, everything hidden. */
    method SavePreferences()
      requires Valid()
      modifies this
      ensures Valid()
      ensures preferences == old(preferences)
      ensures store == old(store)[ConsentKey := old(preferences)]
      ensures Storable(store[ConsentKey])
      ensures !showBanner && !showSettings
    {
      store := store[ConsentKey := preferences];
      showBanner := false;
      showSettings := false;
    }

    /** The "Customize" button. */
    method OpenSettings()
      modifies this`showSettings
      ensures showSettings
    {
      showSettings := true;
    }

    /** The close button of the settings panel. */
    method CloseSettings()
      modifies this`showSettings
      ensures !showSettings
    {
      showSettings := false;
    }

    /** A checkbox in the settings panel; nothing is stored until the preferences are saved. */
    method HandlePreferenceChange(c: Category)
      requires Valid()
      modifies this`preferences
      ensures Valid()
      ensures preferences == TogglePreference(old(preferences), c)
    {
      ToggleKeepsEssential(preferences, c);
      if c == Essential {
        return;
      }
      preferences := TogglePreference(preferences, c);
    }
  }
}
