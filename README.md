# Profile-override and message-replay view-models in Dafny

This project models three small Angular view-models and proves properties of them.

- **`OverrideWithText`** models `ProfileOverrideComponent` in `script/cl.ts`. It has two override toggles, "UID" and "entitlements", and each toggle has a text field. The toggles' change handlers keep the two toggles mutually exclusive: switching one on turns the other off and clears the other's text. Submitting builds a record of:
  - the override type;
  - the UID, or none;
  - the entitlement list, or none. The list is the entitlements text split on `,`, with each piece trimmed.
- **`CommaList`** holds that split-and-trim logic as pure functions: `split(',')`, its inverse `join(',')`, and the ECMAScript `trim`.
- **`MessageReplay`** models `MessageReplayComponent` in `script/test/arg.ts`.
  - A baseline date filter seeds a form of start date, end date and destination.
  - Every date edit recomputes `hasDateChanged` against the baseline, and `showRecomputeButton` follows it.
  - `onRecompute` emits the current dates and clears both flags.
  - `onSubmit` emits the form values only when the form is valid and the dates are not flagged.
  - `isSubmitDisabled` is exactly the negation of that guard.
- **`OverrideToggles`** models the second `ProfileOverrideComponent`, in `script/cg.ts`. It has the same exclusive pair of toggles, driven by one parameterised `onToggle`. That handler never touches the form values.

Each component is a Dafny class whose fields are the component's fields. Its handlers are methods whose `modifies` clauses name only the fields the handler writes. Their `ensures` clauses state the whole new state.

The templates bind each toggle with `[(ngModel)]` and give it a `(change)` handler. The binding writes the flipped value first, and then the handler runs. So a user toggle is modelled twice:
- as flip-then-handler: `UserToggleUid`, `UserToggleEntitlements` and `UserToggle`;
- as the bare handler on its own.

A date edit in the replay form is "set the control, then `checkDateChanges`". This is the effect of the form's `valueChanges` subscriptions.

Outputs are return values:
- `onRecompute` returns the `recomputeRequested` payload;
- `onSubmit` returns `Option<SubmitRequest>`, which is `None` when nothing is emitted;
- the cl.ts `onSubmit` is a function returning the logged record;
- the cg.ts `submit` returns the logged form value.

Dates are epoch milliseconds (`int`), compared by equality. `None` is a cleared date control. Form validity is `Validators.required`: both dates must be present and the destination must be a non-empty string.

Two natural readings of these components do not match the code. The model follows the code in both:
- One might expect `hasDateChanged` to always equal "the dates differ from the baseline". The code breaks this: `onRecompute` clears the flag while the dates still differ. The model therefore states that equality (`DateFlagCurrent`) after every date edit, not as a permanent invariant. `DateDriftExample` shows the consequence: after a recompute, the drifted dates can be submitted while the baseline is unchanged.
- The entitlements value is not held as a list. In the code it is one comma-separated string, and the list is only built on submit.

## Model

| member | source | states |
|---|---|---|
| CommaList.IsTrimmable | script/cl.ts:181 | the characters `trim()` removes: the ECMAScript WhiteSpace and LineTerminator code points; space, tab, LF and CR are among them, the `,` separator is not, and all lie at or below U+FEFF |
| CommaList.Split | script/cl.ts:181 | `split(',')` returns at least one piece, and no piece contains a comma |
| CommaList.SplitCount | script/cl.ts:181 | the split yields exactly one more piece than the text has commas |
| CommaList.JoinSplit | script/cl.ts:181 | joining the untrimmed pieces with `,` gives back the original text |
| CommaList.SplitJoin | script/cl.ts:181 | splitting the join of a non-empty, comma-free list of pieces returns that list, so split and join are inverse |
| CommaList.SplitExample | script/cl.ts:181 | `"a, b ,c"` splits into `"a"`, `" b "`, `"c"` |
| CommaList.TrimStart | script/cl.ts:181 | the result is a suffix of the input, everything removed is whitespace, and the result does not start with whitespace |
| CommaList.TrimEnd | script/cl.ts:181 | the result is a prefix of the input, everything removed is whitespace, and the result does not end with whitespace |
| CommaList.Trim | script/cl.ts:181 | `trim()` is no longer than its input and has no whitespace at either end |
| CommaList.TrimUnique | script/cl.ts:181 | if the text is whitespace, then a middle part with no whitespace at its ends, then whitespace, `trim()` returns exactly that middle part |
| CommaList.TrimOfNoEdgeSpace | script/cl.ts:181 | a string with no whitespace at its ends is its own trim |
| CommaList.TrimIdempotent | script/cl.ts:181 | trimming twice is the same as trimming once |
| CommaList.TrimExample | script/cl.ts:181 | `" b ".trim()` is `"b"` |
| CommaList.ParseEntitlements | script/cl.ts:181 | the entitlement list has exactly one entry per comma in the text plus one; no entry contains a comma or starts or ends with whitespace; entry i is the trimmed i-th piece of the split |
| CommaList.ParseEntitlementsExample | script/cl.ts:181 | `"a, b ,c"` gives `["a", "b", "c"]` |
| CommaList.ParseEntitlementsEmpty | script/cl.ts:181 | an empty text gives `[""]` |
| OverrideWithText.ProfileOverrideComponent.constructor | script/cl.ts:158-161 | both toggles start off and both texts start empty |
| OverrideWithText.ProfileOverrideComponent.OnUidToggle | script/cl.ts:163-168 | with UID on: entitlements are switched off, their text becomes `''`, and the UID text is kept; with UID off: nothing changes; afterwards at most one toggle is on |
| OverrideWithText.ProfileOverrideComponent.OnEntitlementsToggle | script/cl.ts:170-175 | with entitlements on: UID is switched off and its text becomes `''`; with entitlements off: nothing changes; afterwards at most one toggle is on |
| OverrideWithText.ProfileOverrideComponent.UserToggleUid | script/cl.ts:29-31 | flip, then handler: the UID toggle is inverted, the other toggle and its text are handled as in `onUidToggle`, and at most one toggle is on from any prior state |
| OverrideWithText.ProfileOverrideComponent.UserToggleEntitlements | script/cl.ts:46-48 | the mirror image of `UserToggleUid` for the entitlements toggle |
| OverrideWithText.ProfileOverrideComponent.EditCustomUid | script/cl.ts:36-38 | typing into the UID field, which is disabled while its toggle is off, sets only `customUid` |
| OverrideWithText.ProfileOverrideComponent.EditCustomEntitlements | script/cl.ts:53-55 | typing into the entitlements field, which is disabled while its toggle is off, sets only `customEntitlements` |
| OverrideWithText.ProfileOverrideComponent.OnSubmit | script/cl.ts:177-186 | the type is `"uid"` iff the UID toggle is on, and `"entitlements"` otherwise; `customUid` is present iff the UID toggle is on, and then equals the field; `customEntitlements` is present iff the entitlements toggle is on, and then is the parsed list; the component is not changed |
| OverrideWithText.SubmittedRecordHasOnePayload | script/cl.ts:177-183 | when submit is visible and the toggles are exclusive, the record carries exactly one payload, the one its type names |
| OverrideWithText.UidSubmitExample | script/cl.ts:177-183 | UID on plus typing `"42"` submits `{uid, "42", null}` |
| OverrideWithText.EntitlementsSubmitExample | script/cl.ts:177-183 | entitlements on plus typing `"a, b ,c"` submits `{entitlements, null, ["a","b","c"]}` |
| OverrideWithText.SwitchClearsOtherTextExample | script/cl.ts:163-175 | switching UID to entitlements and back leaves the earlier UID text cleared |
| MessageReplay.FormValid | script/test/arg.ts:44-48 | `Validators.required` on the three controls: a cleared date or an empty destination makes the form invalid, and a valid form has both dates and a non-empty destination |
| MessageReplay.MessageReplayComponent.IsSubmitDisabled | script/test/arg.ts:93-95 | `!valid \|\| hasDateChanged`: submit is disabled exactly when a date is missing, the destination is empty or the dates are flagged as changed; `OnSubmit` emits exactly when this is false |
| MessageReplay.MessageReplayComponent.constructor | script/test/arg.ts:37-49 | after `ngOnInit`: the count is the initial count; the dates are the filter's; the destination is `''`; both flags are false; submit is disabled |
| MessageReplay.MessageReplayComponent.NgOnInit | script/test/arg.ts:37-41 | copies the initial count and builds the form |
| MessageReplay.MessageReplayComponent.InitializeForm | script/test/arg.ts:43-49 | the form dates are the baseline's and the destination is empty |
| MessageReplay.MessageReplayComponent.CheckDateChanges | script/test/arg.ts:61-70 | `hasDateChanged` is (start differs from the baseline) or (end differs), where a missing date counts as differing; `showRecomputeButton` equals it |
| MessageReplay.MessageReplayComponent.EditStartDate | script/test/arg.ts:52-54 | sets the start date and then runs the date check; nothing else changes |
| MessageReplay.MessageReplayComponent.EditEndDate | script/test/arg.ts:56-58 | sets the end date and then runs the date check; nothing else changes |
| MessageReplay.MessageReplayComponent.EditDestination | script/test/arg.ts:47 | sets the destination only; no flag is recomputed |
| MessageReplay.MessageReplayComponent.OnRecompute | script/test/arg.ts:72-80 | emits exactly the current form dates and clears both flags; the filter and the form values are unchanged |
| MessageReplay.MessageReplayComponent.OnSubmit | script/test/arg.ts:82-95 | emits `{start, end, destination}` iff both dates are present, the destination is non-empty and the dates are not flagged, i.e. iff `isSubmitDisabled` is false; changes no state |
| MessageReplay.MessageReplayComponent.UpdateMessageCount | script/test/arg.ts:97-99 | sets `currentMessageCount` and nothing else |
| MessageReplay.DriftedDatesBlockSubmit | script/test/arg.ts:93-95 | while the date flag is current and the dates differ from the baseline, submit is disabled |
| MessageReplay.DateDriftExample | script/test/arg.ts:72-91 | moving the start date by 1 ms blocks submit and shows recompute; recompute emits the drifted dates and keeps the baseline; a second submit then succeeds |
| MessageReplay.ClearedDateExample | script/test/arg.ts:61-67 | clearing a date control counts as a change and blocks submit |
| MessageReplay.EditBackExample | script/test/arg.ts:61-67 | editing a date away and back to the baseline lifts the flag, and submit emits |
| OverrideToggles.ProfileOverrideComponent.constructor | script/cg.ts:50-58 | both flags start off, and the form values are `''` and `''` |
| OverrideToggles.ProfileOverrideComponent.OnToggle | script/cg.ts:60-63 | if the named flag is on, the other flag is switched off; the named flag and the form values never change; with the named flag off, nothing changes; exclusivity is preserved |
| OverrideToggles.ProfileOverrideComponent.UserToggle | script/cg.ts:17-25 | flip, then `onToggle`: the named flag is inverted, the other flag is off if the named one is now on, and at most one flag is on from any prior state; the form is untouched |
| OverrideToggles.ProfileOverrideComponent.Submit | script/cg.ts:65-67 | the logged value is the form's current value; no state changes |
| OverrideToggles.SwitchOverrideExample | script/cg.ts:60-67 | UID on, then entitlements on, leaves only entitlements on; submit logs the untouched `''` form values |

## Left out

- Templates and styles are not modelled (script/cl.ts:5-151, script/cg.ts:6-46). The model uses only three things from them: the flip-then-handler order of the toggles, the disabled state of the cl.ts text fields, and the visibility of the submit button.
- `console.log` is not modelled. The logged record is returned instead.
- OverrideWithText.ProfileOverrideComponent.OnSubmit takes the timestamp as a parameter. The source's `new Date().toISOString()` reads the wall clock.
- `IsTrimmable` is the ECMAScript list of whitespace and line-terminator code points, with the Zs space separators listed by number. A future Unicode version that adds a Zs character is not tracked.
- RxJS and Angular machinery is not modelled. This covers the `valueChanges` subscriptions, `EventEmitter`, and the `FormBuilder`/`FormGroup` internals. Subscriptions are direct calls and emitted payloads are return values. Only the control values and the `required` rule are modelled.
- `Date` objects are replaced by integer milliseconds. An invalid date that a date picker would turn into `null` is `None`.
- Re-binding of the `filter` and `initialMessageCount` inputs after `ngOnInit` is not modelled: they are `const`. The component never writes them itself.
- The replay component's state between construction and `ngOnInit` is not modelled. The constructor performs both steps, because before `ngOnInit` the form does not exist.
- `destinationOptions` (script/test/arg.ts:26-33) is not modelled. The component never checks membership, so a destination is any string.
- The display constants `appVersion`, `currentUserId` and `environment` (script/cl.ts:154-156) are not modelled. They have no logic.
- User edits of the cg.ts `uid` and `entitlements` controls are not modelled. Their inputs use `formControlName` with no enclosing `[formGroup]` binding in the template (script/cg.ts:20, 28), so the source gives no path by which the inputs update `form`. The model keeps `form` as it was built, and `Submit` logs whatever it holds.
- Dafny strings are sequences of Unicode scalar values, while JavaScript strings are sequences of UTF-16 code units, so a lone surrogate cannot be represented. `split(',')` and `trim()` give the same result on all well-formed text either way, so nothing the core depends on is lost.
- script/test.py is not part of this model. It is an HTTP server: socket I/O only.
- The paged replay-request table is not part of this model. Its source file is not among the files modelled.
