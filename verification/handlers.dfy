/**
 * The page's event handlers. `Page` holds the page state the handlers
 * write: the error list and the markers, the visibility of the payment
 * elements, the activity checkboxes, the colour options, the displayed
 * total and the other small flags. What the user types into text inputs
 * and selects arrives as parameters (a `Values` snapshot, the chosen
 * design, ...), as the handlers read it when they run.
 */
module Handlers {
  import opened Options
  import opened Patterns
  import opened ActivityList
  import opened Rules
  import opened Payment
  import opened ErrorState

  /** An option of the colour select: its `data-theme`, whether it is selected, whether it is displayed. */
  datatype ColorOption = ColorOption(theme: Option<string>, selected: bool, shown: bool)

  /** The placeholder option of the design select. */
  const SELECT_THEME := "Select Theme"

  /** After a design change an option is displayed iff it has no theme or its theme is the design. */
  predicate ShownForDesign(o: ColorOption, design: string) {
    o.theme.None? || o.theme.value == design
  }

  /** `creditCardValidates`: walks the sub-field table only while the payment select holds the rule's value. */
  method CreditCardValidates(rule: FieldRule, values: Values) returns (errorsArray: seq<FieldError>)
    requires rule.validator.CreditCard?
    ensures errorsArray == CreditCardErrors(rule, values)
  {
    errorsArray := [];
    if ValueOf(values, rule.fieldId) == rule.validator.fieldIdValue {
      var regexes := rule.validator.fieldRegex;
      assert regexes[0..] == regexes;
      for i := 0 to |regexes|
        invariant errorsArray + FieldRegexErrors(regexes[i..], values) == FieldRegexErrors(regexes, values)
      {
        ghost var rest := FieldRegexErrors(regexes[i + 1..], values);
        assert FieldRegexErrors(regexes[i..], values) == RegexEntry(regexes[i], values) + rest by {
          assert regexes[i..][1..] == regexes[i + 1..];
        }
        var r := regexes[i];
        if FailsRegex(r, values) {
          assert errorsArray + ([FieldError(r.field, r.errorMsg)] + rest) ==
            (errorsArray + [FieldError(r.field, r.errorMsg)]) + rest;
          errorsArray := errorsArray + [FieldError(r.field, r.errorMsg)];
        } else {
          assert RegexEntry(r, values) + rest == rest;
        }
      }
    }
  }

  class Page {
    /** The checkbox inputs, in document order. */
    const boxes: array<Checkbox>
    /** The options of the colour select. */
    const colorOptions: array<ColorOption>
    /** The global error list. */
    var allFormErrors: seq<FieldError>
    /** The valid / not-valid class on each field's container. */
    var markers: map<FieldId, Marker>
    /** Visibility of the payment elements, by class name: true for 'visible', false for 'hidden'. */
    var visible: map<string, bool>
    /** The amount the activities total displays. */
    var totalCost: nat
    /** The text of the e-mail field's message element. */
    var emailMessage: string
    var otherJobRoleVisible: bool
    var colorDisabled: bool

    function View(): ErrorView
      reads this
    {
      ErrorView(allFormErrors, markers)
    }

    /**
     * The page as loaded: no errors or markers, the other-job-role field
     * hidden, the colour select disabled and the credit-card elements shown.
     */
    constructor (boxes: array<Checkbox>, colorOptions: array<ColorOption>, emailMessage: string)
      ensures this.boxes == boxes && this.colorOptions == colorOptions
      ensures View() == INITIAL && this.emailMessage == emailMessage && totalCost == 0
      ensures !otherJobRoleVisible && colorDisabled
      ensures visible == VisibilityAfter(map[], PAYMENT_OPTIONS, "credit-card")
    {
      this.boxes := boxes;
      this.colorOptions := colorOptions;
      allFormErrors := [];
      markers := map[];
      visible := map[];
      totalCost := 0;
      this.emailMessage := emailMessage;
      otherJobRoleVisible := false;
      colorDisabled := true;
      new;
      PaymentOptionSet("credit-card");
    }

    /** `clearFormErrors`. */
    method ClearFormErrors()
      modifies this`markers, this`allFormErrors
      ensures View() == Cleared(old(View()))
    {
      var i := 0;
      assert allFormErrors[0..] == allFormErrors;
      while i < |allFormErrors|
        invariant 0 <= i <= |allFormErrors| && allFormErrors == old(allFormErrors)
        invariant Mark(markers, allFormErrors[i..], Valid) == Mark(old(markers), allFormErrors, Valid)
      {
        assert allFormErrors[i..][1..] == allFormErrors[i + 1..];
        markers := markers[allFormErrors[i].field := Valid];
        i := i + 1;
      }
      allFormErrors := [];
    }

    /** `handleFormErrors`. */
    method HandleFormErrors()
      modifies this`markers
      ensures View() == Rendered(old(View()))
    {
      var i := 0;
      assert allFormErrors[0..] == allFormErrors;
      while i < |allFormErrors|
        invariant 0 <= i <= |allFormErrors|
        invariant Mark(markers, allFormErrors[i..], NotValid) == Mark(old(markers), allFormErrors, NotValid)
      {
        assert allFormErrors[i..][1..] == allFormErrors[i + 1..];
        markers := markers[allFormErrors[i].field := NotValid];
        i := i + 1;
      }
    }

    /** `activitiesValidates`: stops at the first checked box that carries a cost. */
    method ActivitiesValidates(rule: FieldRule) returns (errorsArray: seq<FieldError>)
      ensures errorsArray == ActivitiesErrors(rule, boxes[..])
    {
      errorsArray := [];
      var atLeastOneItemChecked := false;
      var i := 0;
      while i < boxes.Length
        invariant 0 <= i <= boxes.Length
        invariant !atLeastOneItemChecked
        invariant forall j :: 0 <= j < i ==> !(boxes[j].cost.Some? && boxes[j].checked)
      {
        if boxes[i].cost.Some? && boxes[i].checked {
          atLeastOneItemChecked := true;
          assert boxes[..][i] == boxes[i];
          break;
        }
        i := i + 1;
      }
      if !atLeastOneItemChecked {
        errorsArray := [FieldError(rule.fieldId, rule.errorMsg)];
      }
    }

    /** `rule.validationfunction(rule)`. */
    method RunValidation(rule: FieldRule, values: Values) returns (errorsArray: seq<FieldError>)
      ensures errorsArray == Validate(rule, values, boxes[..])
    {
      match rule.validator
      case BasicRegExp(_) =>
        errorsArray := BasicRegExpValidates(rule, values);
      case CreditCard(_, _) =>
        errorsArray := CreditCardValidates(rule, values);
      case ActivitiesChecked =>
        errorsArray := ActivitiesValidates(rule);
    }

    /** The loop of the submit handler over a rule table: appends each rule's entries to the list, in table order. */
    method RunValidations(rules: seq<FieldRule>, values: Values)
      modifies this`allFormErrors
      ensures allFormErrors == old(allFormErrors) + ErrorsOf(rules, values, boxes[..])
    {
      ghost var bs := boxes[..];
      ghost var start := allFormErrors;
      assert rules[0..] == rules;
      for i := 0 to |rules|
        invariant allFormErrors + ErrorsOf(rules[i..], values, bs) == start + ErrorsOf(rules, values, bs)
      {
        ghost var rest := ErrorsOf(rules[i + 1..], values, bs);
        assert ErrorsOf(rules[i..], values, bs) == Validate(rules[i], values, bs) + rest by {
          assert rules[i..][1..] == rules[i + 1..];
        }
        var errorsArray := RunValidation(rules[i], values);
        if |errorsArray| > 0 {
          assert allFormErrors + (errorsArray + rest) == (allFormErrors + errorsArray) + rest;
          allFormErrors := allFormErrors + errorsArray;
        } else {
          assert errorsArray + rest == rest;
        }
      }
    }

    /**
     * The submit handler: clears the previous errors, runs every rule of the
     * table in order, and cancels submission and renders the errors iff
     * there are any. The result is `cancelled`, the call of `preventDefault`.
     */
    method Submit(values: Values) returns (cancelled: bool)
      modifies this`markers, this`allFormErrors
      ensures View() == SubmitStep(old(View()), AllFormErrors(values, boxes[..]))
      ensures cancelled <==> allFormErrors != []
      ensures cancelled <==> !FormAcceptable(values, boxes[..])
      ensures Consistent(old(View())) ==> Consistent(View())
    {
      ghost var errors := AllFormErrors(values, boxes[..]);
      ghost var cleared := Cleared(View());
      ClearFormErrors();
      RunValidations(FIELD_VALIDATIONS, values);
      assert View() == cleared.(errors := errors);
      cancelled := |allFormErrors| > 0;
      if cancelled {
        HandleFormErrors();
      } else {
        assert Mark(markers, allFormErrors, NotValid) == markers;
      }
      assert View() == SubmitStep(old(View()), errors);
      AllFormErrorsEmptyIff(values, boxes[..]);
      if Consistent(old(View())) {
        SubmitKeepsConsistent(old(View()), allFormErrors);
      }
    }

    /**
     * The keyup handler of the e-mail field: marks it valid, then on a
     * too-short or non-`.com` value marks it not valid, shows the message and
     * empties the error list. The result is the call of `preventDefault`.
     */
    method EmailKeyup(value: string) returns (cancelled: bool)
      modifies this`markers, this`allFormErrors, this`emailMessage
      ensures View() == EmailKeyupStep(old(View()), EmailKeyupMessage(value))
      ensures cancelled <==> !EmailDotCom(value)
      ensures emailMessage == if cancelled then EmailKeyupMessage(value) else old(emailMessage)
    {
      markers := markers[Email := Valid];
      var errorMsg := "";
      if Utf16Length(value) < 5 {
        errorMsg := MIN_LENGTH_MSG;
      } else if !EmailDotComMatches(value) {
        errorMsg := EMAIL_MSG;
      }
      cancelled := |errorMsg| > 0;
      if cancelled {
        markers := markers[Email := NotValid];
        emailMessage := errorMsg;
        allFormErrors := [];
      }
      EmailKeyupRule(value);
    }

    /**
     * `paymentOptionSet`: every element of the option whose kind is
     * `paymentOption` becomes visible, every element of the other options
     * hidden; nothing else changes.
     */
    method PaymentOptionSet(paymentOption: string)
      modifies this`visible
      ensures visible == VisibilityAfter(old(visible), PAYMENT_OPTIONS, paymentOption)
      ensures forall i, f :: 0 <= i < |PAYMENT_OPTIONS| && f in PAYMENT_OPTIONS[i].fields ==>
        f in visible && visible[f] == (PAYMENT_OPTIONS[i].kind == paymentOption)
      ensures forall f :: !OptionField(PAYMENT_OPTIONS, f) ==>
        (f in visible <==> f in old(visible)) && (f in old(visible) ==> visible[f] == old(visible)[f])
    {
      assert PAYMENT_OPTIONS[0..] == PAYMENT_OPTIONS;
      for i := 0 to |PAYMENT_OPTIONS|
        invariant VisibilityAfter(visible, PAYMENT_OPTIONS[i..], paymentOption) ==
          VisibilityAfter(old(visible), PAYMENT_OPTIONS, paymentOption)
      {
        assert PAYMENT_OPTIONS[i..][1..] == PAYMENT_OPTIONS[i + 1..];
        var option := PAYMENT_OPTIONS[i];
        // The source has one loop per branch, writing SHOW or HIDE.
        var shown := paymentOption == option.kind;
        ghost var start := visible;
        assert option.fields[0..] == option.fields;
        for j := 0 to |option.fields|
          invariant ShowAll(visible, option.fields[j..], shown) == ShowAll(start, option.fields, shown)
        {
          assert option.fields[j..][1..] == option.fields[j + 1..];
          visible := visible[option.fields[j] := shown];
        }
      }
      PaymentVisibility(old(visible), paymentOption);
    }

    /**
     * `toggleSimultaneousActivities` for the box at `k` that just changed:
     * see `Toggled` and `ToggledEffect` for what it does to every box.
     */
    method ToggleSimultaneousActivities(k: nat)
      requires k < boxes.Length
      modifies boxes
      ensures boxes[..] == Toggled(old(boxes[..]), old(boxes[k]))
    {
      var currentDayTime := boxes[k].dayAndTime;
      var currentCheckBoxName := boxes[k].name;
      for i := 0 to boxes.Length
        invariant forall j :: 0 <= j < i ==> boxes[j] == ToggleOne(old(boxes[j]), old(boxes[k]))
        invariant forall j :: i <= j < boxes.Length ==> boxes[j] == old(boxes[j])
      {
        assert boxes[k] == old(boxes[k]);
        if boxes[i].dayAndTime == currentDayTime && currentCheckBoxName != boxes[i].name {
          boxes[i] := boxes[i].(disabled := boxes[k].checked);
        }
      }
      ghost var was := old(boxes[..]);
      ToggledLength(was, old(boxes[k]));
      forall j | 0 <= j < boxes.Length ensures boxes[..][j] == Toggled(was, old(boxes[k]))[j] {
        ToggledAt(was, old(boxes[k]), j);
      }
    }

    /** The total the activities change handler computes; 0 when the event's target is not an input. */
    method ActivitiesCost(targetIsInput: bool) returns (totalActivitiesCost: nat)
      ensures totalActivitiesCost == if targetIsInput then CostTotal(boxes[..]) else 0
    {
      totalActivitiesCost := 0;
      if targetIsInput {
        assert boxes[0..] == boxes[..];
        for i := 0 to boxes.Length
          invariant totalActivitiesCost + CostTotal(boxes[i..]) == CostTotal(boxes[..])
        {
          assert boxes[i..][1..] == boxes[i + 1..];
          var activityPrice := boxes[i].cost;
          if activityPrice.Some? && boxes[i].checked {
            totalActivitiesCost := totalActivitiesCost + activityPrice.value;
          }
        }
      }
    }

    /** The activities change handler: the displayed total becomes the computed one. */
    method ActivitiesChanged(targetIsInput: bool)
      modifies this`totalCost
      ensures totalCost == if targetIsInput then CostTotal(boxes[..]) else 0
    {
      totalCost := ActivitiesCost(targetIsInput);
    }

    /**
     * The design change handler: enables the colour select unless the
     * placeholder is chosen (it never disables it again) and displays exactly
     * the options with no theme or the chosen one. The selected option is
     * left as it was, even when it is now hidden.
     */
    method DesignChanged(design: string)
      modifies this`colorDisabled, colorOptions
      ensures colorDisabled == (old(colorDisabled) && design == SELECT_THEME)
      ensures forall i :: 0 <= i < colorOptions.Length ==>
        colorOptions[i] == old(colorOptions[i]).(shown := ShownForDesign(old(colorOptions[i]), design))
    {
      if design != SELECT_THEME {
        colorDisabled := false;
      }
      for i := 0 to colorOptions.Length
        invariant colorDisabled == (old(colorDisabled) && design == SELECT_THEME)
        invariant forall j :: 0 <= j < i ==>
          colorOptions[j] == old(colorOptions[j]).(shown := ShownForDesign(old(colorOptions[j]), design))
        invariant forall j :: i <= j < colorOptions.Length ==> colorOptions[j] == old(colorOptions[j])
      {
        var option := colorOptions[i];
        if option.theme.Some? && option.theme.value != design {
          colorOptions[i] := option.(shown := false);
        } else {
          colorOptions[i] := option.(shown := true);
        }
      }
    }

    /** The job-title change handler: the other-job-role field is visible iff the last title option is selected. */
    method TitleChanged(titleSelected: seq<bool>)
      requires |titleSelected| > 0
      modifies this`otherJobRoleVisible
      ensures otherJobRoleVisible == titleSelected[|titleSelected| - 1]
    {
      otherJobRoleVisible := titleSelected[|titleSelected| - 1];
    }
  }

}
