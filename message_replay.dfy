/**
  The message-replay form of script/test/arg.ts. A baseline date `Filter` supplied by the
  parent seeds a form of start date, end date and destination. Every edit of a date
  recomputes whether the dates have drifted from the baseline; while they have, a
  "recompute" action is offered and submission is refused.

  Dates are epoch milliseconds compared by equality; `None` is a cleared date control.
  The two outputs (`recomputeRequested`, `submitRequested`) are the values the methods
  return: `OnRecompute` always emits, `OnSubmit` emits `Some` exactly when its guard holds.
 */
module MessageReplay {
  import opened Wrappers

  /** The baseline date range (the `filter` input). */
  datatype Filter = Filter(startDate: int, endDate: int)

  /** The payload of `recomputeRequested`: the form's current dates, present or not. */
  datatype RecomputeRequest = RecomputeRequest(startDate: Option<int>, endDate: Option<int>)

  /** The payload of `submitRequested`. */
  datatype SubmitRequest = SubmitRequest(startDate: int, endDate: int, destination: string)

  /** `Validators.required` on all three controls: both dates present, destination non-empty. */
  function FormValid(startDate: Option<int>, endDate: Option<int>, destination: string): (valid: bool)
    ensures startDate.None? || endDate.None? || destination == "" ==> !valid
    ensures valid ==> startDate.Some? && endDate.Some? && |destination| > 0
  {
    startDate.Some? && endDate.Some? && destination != ""
  }

  /** The comparison `checkDateChanges` makes: a date differs from the baseline when it is
      missing or holds another instant. */
  predicate DatesDiffer(filter: Filter, startDate: Option<int>, endDate: Option<int>) {
    startDate != Some(filter.startDate) || endDate != Some(filter.endDate)
  }

  class MessageReplayComponent {
    /** Inputs bound by the parent before `ngOnInit`; the component never writes them. */
    const filter: Filter
    const initialMessageCount: int

    var currentMessageCount: int
    var hasDateChanged: bool
    var showRecomputeButton: bool

    /** The values of the three form controls. */
    var startDate: Option<int>
    var endDate: Option<int>
    var destination: string

    /** The recompute button is shown exactly while the dates are flagged as changed. */
    predicate FlagsAgree()
      reads this
    {
      showRecomputeButton == hasDateChanged
    }

    /** The dates flag agrees with the current dates; true after every date edit, and
        until the next `OnRecompute`. */
    predicate DateFlagCurrent()
      reads this
    {
      hasDateChanged == DatesDiffer(filter, startDate, endDate)
    }

    /** Inputs are bound, then the framework calls `ngOnInit`. Before it, the form does not exist;
        its placeholders here are never observed. */
    constructor (filter: Filter, initialMessageCount: int)
      ensures this.filter == filter && this.initialMessageCount == initialMessageCount
      ensures currentMessageCount == initialMessageCount
      ensures startDate == Some(filter.startDate) && endDate == Some(filter.endDate)
      ensures destination == ""
      ensures !hasDateChanged && !showRecomputeButton
      ensures FlagsAgree() && DateFlagCurrent()
      ensures IsSubmitDisabled()
    {
      this.filter := filter;
      this.initialMessageCount := initialMessageCount;
      currentMessageCount := 0;
      hasDateChanged := false;
      showRecomputeButton := false;
      startDate := None;
      endDate := None;
      destination := "";
      new;
      NgOnInit();
    }

    /** `ngOnInit`: copy the initial count and build the form. Building the form emits no value
        change, so the flags keep their initial values. */
    method NgOnInit()
      modifies this`currentMessageCount, this`startDate, this`endDate, this`destination
      ensures currentMessageCount == initialMessageCount
      ensures startDate == Some(filter.startDate) && endDate == Some(filter.endDate)
      ensures destination == ""
    {
      currentMessageCount := initialMessageCount;
      InitializeForm();
    }

    /** `initializeForm`: the dates come from the baseline, the destination starts empty. */
    method InitializeForm()
      modifies this`startDate, this`endDate, this`destination
      ensures startDate == Some(filter.startDate) && endDate == Some(filter.endDate)
      ensures destination == ""
      ensures !DatesDiffer(filter, startDate, endDate)
    {
      startDate := Some(filter.startDate);
      endDate := Some(filter.endDate);
      destination := "";
    }

    /** `checkDateChanges`. */
    method CheckDateChanges()
      modifies this`hasDateChanged, this`showRecomputeButton
      ensures hasDateChanged == DatesDiffer(filter, startDate, endDate)
      ensures showRecomputeButton == hasDateChanged
      ensures FlagsAgree() && DateFlagCurrent()
    {
      hasDateChanged := startDate != Some(filter.startDate) || endDate != Some(filter.endDate);
      showRecomputeButton := hasDateChanged;
    }

    /** The start-date control takes a new value; its `valueChanges` subscription then runs
        `checkDateChanges`. */
    method EditStartDate(value: Option<int>)
      modifies this`startDate, this`hasDateChanged, this`showRecomputeButton
      ensures startDate == value
      ensures hasDateChanged == (value != Some(filter.startDate) || endDate != Some(filter.endDate))
      ensures FlagsAgree() && DateFlagCurrent()
    {
      startDate := value;
      CheckDateChanges();
    }

    /** The end-date control takes a new value, then `checkDateChanges` runs. */
    method EditEndDate(value: Option<int>)
      modifies this`endDate, this`hasDateChanged, this`showRecomputeButton
      ensures endDate == value
      ensures hasDateChanged == (startDate != Some(filter.startDate) || value != Some(filter.endDate))
      ensures FlagsAgree() && DateFlagCurrent()
    {
      endDate := value;
      CheckDateChanges();
    }

    /** The destination control takes a new value; no subscription watches it. */
    method EditDestination(value: string)
      modifies this`destination
      ensures destination == value
    {
      destination := value;
    }

    /** `onRecompute`: emit the current dates, then clear both flags without waiting for the
        parent's answer. */
    method OnRecompute() returns (request: RecomputeRequest)
      modifies this`hasDateChanged, this`showRecomputeButton
      ensures request.startDate == startDate && request.endDate == endDate
      ensures !hasDateChanged && !showRecomputeButton
      ensures FlagsAgree()
    {
      request := RecomputeRequest(startDate, endDate);
      hasDateChanged := false;
      showRecomputeButton := false;
    }

    /** `isSubmitDisabled`: a required control is empty, or the dates are flagged as changed. */
    function IsSubmitDisabled(): (disabled: bool)
      reads this
      ensures disabled <==> startDate.None? || endDate.None? || destination == "" || hasDateChanged
    {
      !FormValid(startDate, endDate, destination) || hasDateChanged
    }

    /** `onSubmit`: emits the form's values exactly when the form is valid and the dates are not
        flagged as changed, i.e. exactly when the submit button is enabled; changes nothing. */
    method OnSubmit() returns (request: Option<SubmitRequest>)
      ensures request.Some? <==>
        (startDate.Some? && endDate.Some? && destination != "" && !hasDateChanged)
      ensures request.Some? <==> !IsSubmitDisabled()
      ensures request.Some? ==>
        request.value == SubmitRequest(startDate.value, endDate.value, destination)
    {
      if FormValid(startDate, endDate, destination) && !hasDateChanged {
        request := Some(SubmitRequest(startDate.value, endDate.value, destination));
      } else {
        request := None;
      }
    }

    /** `updateMessageCount`: the parent pushes a refreshed count. */
    method UpdateMessageCount(count: int)
      modifies this`currentMessageCount
      ensures currentMessageCount == count
    {
      currentMessageCount := count;
    }
  }

  /** While the dates carry the flag of their last edit and differ from the baseline,
      submission is refused. */
  lemma DriftedDatesBlockSubmit(c: MessageReplayComponent)
    requires c.DateFlagCurrent() && DatesDiffer(c.filter, c.startDate, c.endDate)
    ensures c.IsSubmitDisabled()
  {
  }

  /** Moving the start date one millisecond past the baseline blocks submission and offers a
      recompute; recompute emits the drifted dates and clears the flags while the baseline
      stays as it was, after which the drifted dates can be submitted. */
  method DateDriftExample(filter: Filter, target: string)
    returns (blocked: Option<SubmitRequest>, flagged: bool, request: RecomputeRequest,
             baselineAfter: Filter, accepted: Option<SubmitRequest>)
    requires target != ""
    ensures blocked == None && flagged
    ensures request == RecomputeRequest(Some(filter.startDate + 1), Some(filter.endDate))
    ensures baselineAfter == filter
    ensures accepted == Some(SubmitRequest(filter.startDate + 1, filter.endDate, target))
  {
    var c := new MessageReplayComponent(filter, 0);
    c.EditDestination(target);
    c.EditStartDate(Some(filter.startDate + 1));
    flagged := c.showRecomputeButton;
    blocked := c.OnSubmit();
    request := c.OnRecompute();
    baselineAfter := c.filter;
    accepted := c.OnSubmit();
  }

  /** Clearing a date control counts as a change and blocks submission. */
  method ClearedDateExample(filter: Filter, target: string)
    returns (flagged: bool, submitted: Option<SubmitRequest>)
    requires target != ""
    ensures flagged && submitted == None
  {
    var c := new MessageReplayComponent(filter, 7);
    c.EditDestination(target);
    c.EditEndDate(None);
    flagged := c.hasDateChanged;
    submitted := c.OnSubmit();
  }

  /** Editing a date away and back to its baseline value lifts the flag again. */
  method EditBackExample(filter: Filter, target: string)
    returns (flagged: bool, submitted: Option<SubmitRequest>)
    requires target != ""
    ensures !flagged
    ensures submitted == Some(SubmitRequest(filter.startDate, filter.endDate, target))
  {
    var c := new MessageReplayComponent(filter, 0);
    c.EditDestination(target);
    c.EditEndDate(Some(filter.endDate - 5));
    c.EditEndDate(Some(filter.endDate));
    flagged := c.hasDateChanged;
    submitted := c.OnSubmit();
  }
}
