/** The two player switches of stores/playerPreferencesStore.ts. */
module PlayerPreferencesStore {

  class Store {
    var autoplayEnabled: bool
    var autonextEnabled: bool

    /** Both switches start on. */
    constructor ()
      ensures autoplayEnabled && autonextEnabled
    {
      autoplayEnabled := true;
      autonextEnabled := true;
    }

    /** The value written is the value held, whatever was there before. */
    method SetAutoplay(enabled: bool)
      modifies this`autoplayEnabled
      ensures autoplayEnabled == enabled
    {
      autoplayEnabled := enabled;
    }

    method SetAutonext(enabled: bool)
      modifies this`autonextEnabled
      ensures autonextEnabled == enabled
    {
      autonextEnabled := enabled;
    }
  }

  /** `setAutoplay` leaves `autonextEnabled` alone and vice versa; the last write wins. */
  method SettersIndependent(s: Store, a: bool, b: bool, c: bool)
    modifies s
    ensures s.autoplayEnabled == c && s.autonextEnabled == b
  {
    s.SetAutoplay(a);
    s.SetAutonext(b);
    s.SetAutoplay(c);
  }
}
