/**
  The second profile-override form, script/cg.ts: the same two mutually exclusive toggles,
  handled by one parameterised `onToggle`, next to a form group holding the `uid` and
  `entitlements` values. Unlike script/cl.ts, the handler never touches the form values.

  Each toggle is bound with `[(ngModel)]` and has a `(change)` handler, so a user toggle is
  `UserToggle` (flip the named flag, then `onToggle`).
 */
module OverrideToggles {

  /** The argument of `onToggle`. */
  datatype ToggleType = Uid | Entitlements

  /** `form.value`: the values of the `uid` and `entitlements` controls. */
  datatype FormValue = FormValue(uid: string, entitlements: string)

  class ProfileOverrideComponent {
    var form: FormValue
    var uidEnabled: bool
    var entitlementsEnabled: bool

    /** The flag a toggle type names. */
    function Enabled(t: ToggleType): bool
      reads this
    {
      match t
      case Uid => uidEnabled
      case Entitlements => entitlementsEnabled
    }

    predicate AtMostOneEnabled()
      reads this
    {
      !(uidEnabled && entitlementsEnabled)
    }

    constructor ()
      ensures !uidEnabled && !entitlementsEnabled
      ensures form == FormValue("", "")
      ensures AtMostOneEnabled()
    {
      form := FormValue("", "");
      uidEnabled := false;
      entitlementsEnabled := false;
    }

    /** `onToggle(type)`: when the named flag is on, switch the other one off. The named flag
        itself and the form values are never changed; with the named flag off, nothing is. */
    method OnToggle(t: ToggleType)
      modifies this`uidEnabled, this`entitlementsEnabled
      ensures uidEnabled == (old(uidEnabled) && !(t == Entitlements && entitlementsEnabled))
      ensures entitlementsEnabled == (old(entitlementsEnabled) && !(t == Uid && uidEnabled))
      ensures Enabled(t) == old(Enabled(t))
      ensures !Enabled(t) ==> unchanged(this)
      ensures Enabled(t) ==> AtMostOneEnabled()
      ensures old(AtMostOneEnabled()) ==> AtMostOneEnabled()
      ensures form == old(form)
    {
      if t == Uid && uidEnabled {
        entitlementsEnabled := false;
      }
      if t == Entitlements && entitlementsEnabled {
        uidEnabled := false;
      }
    }

    /** The user flips toggle `t`: the binding writes the new value, then `onToggle(t)` runs.
        Afterwards at most one flag is on, whatever the state before. */
    method UserToggle(t: ToggleType)
      modifies this`uidEnabled, this`entitlementsEnabled
      ensures Enabled(t) == !old(Enabled(t))
      ensures t == Uid ==> entitlementsEnabled == (old(entitlementsEnabled) && !uidEnabled)
      ensures t == Entitlements ==> uidEnabled == (old(uidEnabled) && !entitlementsEnabled)
      ensures AtMostOneEnabled()
      ensures form == old(form)
    {
      if t == Uid {
        uidEnabled := !uidEnabled;
      } else {
        entitlementsEnabled := !entitlementsEnabled;
      }
      OnToggle(t);
    }

    /** `submit`: the value it logs, the form's current values; it changes nothing. */
    method Submit() returns (logged: FormValue)
      ensures logged.uid == form.uid && logged.entitlements == form.entitlements
    {
      logged := form;
    }
  }

  /** Turning the UID override on and then the entitlements override leaves only the latter on;
      submit logs the untouched form values. */
  method SwitchOverrideExample() returns (uidOn: bool, entitlementsOn: bool, logged: FormValue)
    ensures !uidOn && entitlementsOn
    ensures logged == FormValue("", "")
  {
    var c := new ProfileOverrideComponent();
    c.UserToggle(Uid);
    c.UserToggle(Entitlements);
    uidOn, entitlementsOn := c.uidEnabled, c.entitlementsEnabled;
    logged := c.Submit();
  }
}
