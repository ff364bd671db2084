/**
 * The error list `allFormErrors` and the valid / not-valid markers on the
 * fields' containers, and what clearing, rendering, a submit pass and the
 * e-mail keyup rule do to them.
 */
module ErrorState {
  import opened ActivityList
  import opened Patterns
  import opened Rules

  /** The class a field's container carries once a handler has looked at it; no entry means neither. */
  datatype Marker = Valid | NotValid

  /** The fields named in an error list. */
  function FieldsOf(errors: seq<FieldError>): set<FieldId> {
    if errors == [] then {} else {errors[0].field} + FieldsOf(errors[1..])
  }

  /** `markers` after giving each listed field the marker `mk`, left to right. */
  function Mark(markers: map<FieldId, Marker>, errors: seq<FieldError>, mk: Marker): map<FieldId, Marker>
    decreases errors
  {
    if errors == [] then markers else Mark(markers[errors[0].field := mk], errors[1..], mk)
  }

  /** Marking changes exactly the listed fields. */
  lemma {:induction false} MarkAt(markers: map<FieldId, Marker>, errors: seq<FieldError>, mk: Marker, f: FieldId)
    ensures f in FieldsOf(errors) ==> f in Mark(markers, errors, mk) && Mark(markers, errors, mk)[f] == mk
    ensures f !in FieldsOf(errors) ==> (f in Mark(markers, errors, mk) <==> f in markers)
    ensures f !in FieldsOf(errors) && f in markers ==> Mark(markers, errors, mk)[f] == markers[f]
    decreases errors
  {
    if errors != [] {
      MarkAt(markers[errors[0].field := mk], errors[1..], mk, f);
    }
  }

  /** What the handlers read and write: the global error list and the markers. */
  datatype ErrorView = ErrorView(errors: seq<FieldError>, markers: map<FieldId, Marker>)

  /** The page before any handler ran: no errors, no markers. */
  const INITIAL := ErrorView([], map[])

  /** `clearFormErrors`: every listed field marked valid, then the list emptied. */
  function Cleared(v: ErrorView): ErrorView {
    ErrorView([], Mark(v.markers, v.errors, Valid))
  }

  /** `handleFormErrors`: every listed field marked not valid. */
  function Rendered(v: ErrorView): ErrorView {
    v.(markers := Mark(v.markers, v.errors, NotValid))
  }

  /** A submit pass whose validators produced `errors`: clear, set the list, render. */
  function SubmitStep(v: ErrorView, errors: seq<FieldError>): ErrorView {
    Rendered(Cleared(v).(errors := errors))
  }

  /**
   * The e-mail keyup rule with its message (empty for no error): the e-mail
   * field is marked valid; on an error it is marked not valid again and the
   * list is emptied, without touching the markers of the fields it held.
   */
  function EmailKeyupStep(v: ErrorView, message: string): ErrorView {
    var markers := v.markers[Email := Valid];
    if message != "" then ErrorView([], markers[Email := NotValid]) else v.(markers := markers)
  }

  /** The markers agree with the list: a field is marked not valid iff it is listed. */
  ghost predicate Consistent(v: ErrorView) {
    forall f :: (f in v.markers && v.markers[f] == NotValid) <==> f in FieldsOf(v.errors)
  }

  /**
   * After a pass the list is the pass's; a field it lists is marked not
   * valid; a field only the previous list held is marked valid; any other
   * field keeps its marker.
   */
  lemma SubmitMarkers(v: ErrorView, errors: seq<FieldError>, f: FieldId)
    ensures SubmitStep(v, errors).errors == errors
    ensures f in FieldsOf(errors) ==>
      f in SubmitStep(v, errors).markers && SubmitStep(v, errors).markers[f] == NotValid
    ensures f !in FieldsOf(errors) && f in FieldsOf(v.errors) ==>
      f in SubmitStep(v, errors).markers && SubmitStep(v, errors).markers[f] == Valid
    ensures f !in FieldsOf(errors) && f !in FieldsOf(v.errors) ==>
      (f in SubmitStep(v, errors).markers <==> f in v.markers) &&
      (f in v.markers ==> SubmitStep(v, errors).markers[f] == v.markers[f])
  {
    MarkAt(v.markers, v.errors, Valid, f);
    MarkAt(Mark(v.markers, v.errors, Valid), errors, NotValid, f);
  }

  /** Starting from markers that agree with the list, a pass marks exactly the fields it lists as not valid. */
  lemma SubmitKeepsConsistent(v: ErrorView, errors: seq<FieldError>)
    requires Consistent(v)
    ensures Consistent(SubmitStep(v, errors))
  {
    forall f ensures (f in SubmitStep(v, errors).markers && SubmitStep(v, errors).markers[f] == NotValid)
      <==> f in FieldsOf(errors)
    {
      SubmitMarkers(v, errors, f);
    }
  }

  /** Repeating a pass on the same input changes nothing more. */
  lemma SubmitIdempotent(v: ErrorView, errors: seq<FieldError>)
    ensures SubmitStep(SubmitStep(v, errors), errors) == SubmitStep(v, errors)
  {
    var once := SubmitStep(v, errors);
    var twice := SubmitStep(once, errors);
    forall f
      ensures (f in twice.markers <==> f in once.markers)
      ensures f in once.markers ==> twice.markers[f] == once.markers[f]
    {
      SubmitMarkers(v, errors, f);
      SubmitMarkers(once, errors, f);
    }
    assert twice.markers == once.markers;
  }

  /** An acceptable form: the list ends empty and no field is left marked not valid. */
  lemma AcceptedSubmit(v: ErrorView, values: Values, boxes: seq<Checkbox>)
    requires Consistent(v)
    requires FormAcceptable(values, boxes)
    ensures SubmitStep(v, AllFormErrors(values, boxes)).errors == []
    ensures forall f :: f in SubmitStep(v, AllFormErrors(values, boxes)).markers ==>
      SubmitStep(v, AllFormErrors(values, boxes)).markers[f] == Valid
  {
    AllFormErrorsEmptyIff(values, boxes);
    SubmitKeepsConsistent(v, []);
  }

  /** An empty name with the rest acceptable (whatever the payment method): the pass marks the name field, and only it, not valid. */
  lemma NameOnlySubmit(v: ErrorView, values: Values, boxes: seq<Checkbox>)
    requires Consistent(v)
    requires values.name == "" && EmailShape(values.email) && CardAcceptable(values)
    requires AnyCostChecked(boxes)
    ensures forall f :: (f in SubmitStep(v, AllFormErrors(values, boxes)).markers &&
      SubmitStep(v, AllFormErrors(values, boxes)).markers[f] == NotValid) <==> f == Name
  {
    NameOnlyError(values, boxes);
    SubmitKeepsConsistent(v, AllFormErrors(values, boxes));
    assert FieldsOf([FieldError(Name, NAME_MSG)]) == {Name};
  }

  /** The e-mail keyup rule breaks the agreement: on an error the field is marked but not listed. */
  lemma EmailKeyupBreaksConsistency()
    ensures Consistent(INITIAL)
    ensures !Consistent(EmailKeyupStep(INITIAL, MIN_LENGTH_MSG))
  {
    assert Email !in FieldsOf(EmailKeyupStep(INITIAL, MIN_LENGTH_MSG).errors);
  }

  /**
   * A marker left stale: a pass flags the empty name and the e-mail; an
   * e-mail keyup error empties the list without unmarking the name; the
   * name is then filled in and a pass flags only the e-mail, yet the name
   * is still marked not valid.
   */
  lemma StaleMarkerAfterEmailKeyup(boxes: seq<Checkbox>)
    requires AnyCostChecked(boxes)
    ensures var before := Values("", "a", "paypal", "", "", "");
      var after := before.(name := "Ann");
      var v1 := SubmitStep(INITIAL, AllFormErrors(before, boxes));
      var v2 := EmailKeyupStep(v1, EmailKeyupMessage("a"));
      var v3 := SubmitStep(v2, AllFormErrors(after, boxes));
      && AllFormErrors(before, boxes) == [FieldError(Name, NAME_MSG), FieldError(Email, EMAIL_MSG)]
      && AllFormErrors(after, boxes) == [FieldError(Email, EMAIL_MSG)]
      && Name in v3.markers && v3.markers[Name] == NotValid
  {
    var before := Values("", "a", "paypal", "", "", "");
    var after := before.(name := "Ann");
    AllFormErrorsInOrder(before, boxes);
    AllFormErrorsInOrder(after, boxes);
    NameRule(before, boxes);
    NameRule(after, boxes);
    EmailShapeMatchesIff("a");
    EmailRule(before, boxes);
    EmailRule(after, boxes);
    CardRule(before, boxes);
    CardRule(after, boxes);
    var v1 := SubmitStep(INITIAL, AllFormErrors(before, boxes));
    SubmitMarkers(INITIAL, AllFormErrors(before, boxes), Name);
    var v2 := EmailKeyupStep(v1, EmailKeyupMessage("a"));
    assert v2.errors == [];
    SubmitMarkers(v2, AllFormErrors(after, boxes), Name);
  }

}
