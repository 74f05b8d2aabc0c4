/** The full-screen loading overlay (`src/stores/loadingOverlay.ts`): shown on
  * request unless it has been disabled, and hidden whenever it is disabled. */
module LoadingOverlay {
  class LoadingOverlayStore {
    var visible: bool
    var disabled: bool

    /** A disabled overlay is never visible. */
    predicate Valid()
      reads this
    {
      disabled ==> !visible
    }

    constructor()
      ensures Valid() && !visible && !disabled
    {
      visible := false;
      disabled := false;
    }

    method Show()
      requires Valid()
      modifies this
      ensures Valid() && disabled == old(disabled)
      ensures visible == (old(visible) || !disabled)
    {
      if !disabled {
        visible := true;
      }
    }

    method Hide()
      requires Valid()
      modifies this
      ensures Valid() && !visible && disabled == old(disabled)
    {
      visible := false;
    }

    method Disable()
      requires Valid()
      modifies this
      ensures Valid() && disabled && !visible
    {
      disabled := true;
      visible := false;
    }

    /** Enabling does not show the overlay. */
    method Enable()
      requires Valid()
      modifies this
      ensures Valid() && !disabled && visible == old(visible)
    {
      disabled := false;
    }
  }
}
