/**
  The profile-override form of script/cl.ts: two override toggles ("override with UID",
  "override with entitlements"), each with a text field, kept mutually exclusive by the
  toggles' change handlers, and a submit that builds the override record.

  In the template, each toggle is bound with `[(ngModel)]` and also has a `(change)` handler:
  the binding writes the flipped value first and the handler runs afterwards, so a user toggle
  is `UserToggleUid` / `UserToggleEntitlements` (flip, then handler). The handlers are also
  modelled on their own.
 */
module OverrideWithText {
  import opened Wrappers
  import opened CommaList

  /** The record `onSubmit` logs. The wall-clock timestamp is supplied by the caller. */
  datatype OverrideFormData = OverrideFormData(
    overrideType: string,
    customUid: Option<string>,
    customEntitlements: Option<seq<string>>,
    timestamp: string)

  class ProfileOverrideComponent {
    var useCustomUid: bool
    var useCustomEntitlements: bool
    var customUid: string
    var customEntitlements: string

    /** At most one override is switched on. */
    predicate AtMostOneOverride()
      reads this
    {
      !(useCustomUid && useCustomEntitlements)
    }

    /** The submit button is shown only while some override is switched on. */
    predicate SubmitVisible()
      reads this
    {
      useCustomUid || useCustomEntitlements
    }

    constructor ()
      ensures !useCustomUid && !useCustomEntitlements
      ensures customUid == "" && customEntitlements == ""
      ensures AtMostOneOverride()
    {
      useCustomUid := false;
      useCustomEntitlements := false;
      customUid := "";
      customEntitlements := "";
    }

    /** `onUidToggle`: with the UID override on, the entitlements override is switched off and
        its text cleared; with it off, nothing changes (the UID text is kept). */
    method OnUidToggle()
      modifies this`useCustomEntitlements, this`customEntitlements
      ensures useCustomEntitlements == (old(useCustomEntitlements) && !useCustomUid)
      ensures customEntitlements == if useCustomUid then "" else old(customEntitlements)
      ensures !useCustomUid ==> unchanged(this)
      ensures AtMostOneOverride()
    {
      if useCustomUid {
        useCustomEntitlements := false;
        customEntitlements := "";
      }
    }

    /** `onEntitlementsToggle`: the mirror image of `OnUidToggle`. */
    method OnEntitlementsToggle()
      modifies this`useCustomUid, this`customUid
      ensures useCustomUid == (old(useCustomUid) && !useCustomEntitlements)
      ensures customUid == if useCustomEntitlements then "" else old(customUid)
      ensures !useCustomEntitlements ==> unchanged(this)
      ensures AtMostOneOverride()
    {
      if useCustomEntitlements {
        useCustomUid := false;
        customUid := "";
      }
    }

    /** The user flips the UID toggle: the binding writes the new value, then the handler runs.
        Afterwards at most one override is on, whatever the state before. */
    method UserToggleUid()
      modifies this`useCustomUid, this`useCustomEntitlements, this`customEntitlements
      ensures useCustomUid == !old(useCustomUid)
      ensures useCustomEntitlements == (old(useCustomEntitlements) && !useCustomUid)
      ensures customEntitlements == if useCustomUid then "" else old(customEntitlements)
      ensures customUid == old(customUid)
      ensures AtMostOneOverride()
    {
      useCustomUid := !useCustomUid;
      OnUidToggle();
    }

    /** The user flips the entitlements toggle. */
    method UserToggleEntitlements()
      modifies this`useCustomEntitlements, this`useCustomUid, this`customUid
      ensures useCustomEntitlements == !old(useCustomEntitlements)
      ensures useCustomUid == (old(useCustomUid) && !useCustomEntitlements)
      ensures customUid == if useCustomEntitlements then "" else old(customUid)
      ensures customEntitlements == old(customEntitlements)
      ensures AtMostOneOverride()
    {
      useCustomEntitlements := !useCustomEntitlements;
      OnEntitlementsToggle();
    }

    /** The user types into the UID field, which is disabled while its toggle is off. */
    method EditCustomUid(text: string)
      requires useCustomUid
      modifies this`customUid
      ensures customUid == text
    {
      customUid := text;
    }

    /** The user types into the entitlements field, disabled while its toggle is off. */
    method EditCustomEntitlements(text: string)
      requires useCustomEntitlements
      modifies this`customEntitlements
      ensures customEntitlements == text
    {
      customEntitlements := text;
    }

    /** `onSubmit`: the record it logs. As a function it cannot change the component. */
    function OnSubmit(timestamp: string): (r: OverrideFormData)
      reads this
      ensures r.overrideType == "uid" <==> useCustomUid
      ensures r.overrideType == "entitlements" <==> !useCustomUid
      ensures r.customUid.Some? <==> useCustomUid
      ensures r.customUid.Some? ==> r.customUid.value == customUid
      ensures r.customEntitlements.Some? <==> useCustomEntitlements
      ensures r.customEntitlements.Some? ==>
        var entries := r.customEntitlements.value;
        |entries| == Count(customEntitlements, ',') + 1 &&
        entries == ParseEntitlements(customEntitlements) &&
        forall e :: e in entries ==> NoEdgeSpace(e) && ',' !in e
      ensures r.timestamp == timestamp
    {
      OverrideFormData(
        if useCustomUid then "uid" else "entitlements",
        if useCustomUid then Some(customUid) else None,
        if useCustomEntitlements then Some(ParseEntitlements(customEntitlements)) else None,
        timestamp)
    }
  }

  /** Whenever the submit button can be pressed and the toggles are exclusive, the record
      carries exactly one payload, and it is the one its `overrideType` names. */
  lemma SubmittedRecordHasOnePayload(c: ProfileOverrideComponent, timestamp: string)
    requires c.AtMostOneOverride() && c.SubmitVisible()
    ensures var r := c.OnSubmit(timestamp);
      (r.customUid.Some? <==> r.overrideType == "uid") &&
      (r.customEntitlements.Some? <==> r.overrideType == "entitlements") &&
      (r.customUid.Some? != r.customEntitlements.Some?)
  {
  }

  /** Turning the UID override on and typing "42" submits a UID override of "42". */
  method UidSubmitExample(timestamp: string) returns (r: OverrideFormData)
    ensures r == OverrideFormData("uid", Some("42"), None, timestamp)
  {
    var c := new ProfileOverrideComponent();
    c.UserToggleUid();
    c.EditCustomUid("42");
    r := c.OnSubmit(timestamp);
  }

  /** Turning the entitlements override on and typing "a, b ,c" submits ["a", "b", "c"]. */
  method EntitlementsSubmitExample(timestamp: string) returns (r: OverrideFormData)
    ensures r == OverrideFormData("entitlements", None, Some(["a", "b", "c"]), timestamp)
  {
    var c := new ProfileOverrideComponent();
    c.UserToggleEntitlements();
    c.EditCustomEntitlements("a, b ,c");
    ParseEntitlementsExample();
    r := c.OnSubmit(timestamp);
  }

  /** Switching from one override to the other clears the text of the first: after typing a
      UID and then turning the entitlements override on, the UID is gone even when the UID
      override is turned back on. */
  method SwitchClearsOtherTextExample() returns (uidAfter: string, uidOn: bool, entitlementsOn: bool)
    ensures uidAfter == "" && uidOn && !entitlementsOn
  {
    var c := new ProfileOverrideComponent();
    c.UserToggleUid();
    c.EditCustomUid("usr_1");
    c.UserToggleEntitlements();
    c.UserToggleUid();
    uidAfter, uidOn, entitlementsOn := c.customUid, c.useCustomUid, c.useCustomEntitlements;
  }
}
