/**
 * The rule table of the registration form and the validators it names,
 * over a snapshot of the form's values and its activity checkboxes.
 */
module Rules {
  import opened Options
  import opened Patterns
  import opened ActivityList

  /**
   * The form controls the rules and the error list refer to, by element id:
   * "name", "email", "payment", "cc-num", "zip", "cvv", "activities-box".
   */
  datatype FieldId = Name | Email | Payment | CcNum | Zip | Cvv | ActivitiesBox

  /** The `value` of the text inputs and of the payment select when a handler runs. */
  datatype Values = Values(
    name: string,
    email: string,
    payment: string,
    ccNum: string,
    zip: string,
    cvv: string)

  /** `document.getElementById(id).value` for the field's id; the activities box is not an input and no rule reads its value. */
  function ValueOf(v: Values, f: FieldId): string {
    match f
    case Name => v.name
    case Email => v.email
    case Payment => v.payment
    case CcNum => v.ccNum
    case Zip => v.zip
    case Cvv => v.cvv
    case ActivitiesBox => ""
  }

  /** One entry of the error list. */
  datatype FieldError = FieldError(field: FieldId, errorMsg: string)

  /** A credit-card sub-field, its pattern and its own message. */
  datatype FieldRegex = FieldRegex(field: FieldId, pattern: Pattern, errorMsg: string)

  /** Which validation function a rule uses, with what that function reads from the rule. */
  datatype Validator =
    | BasicRegExp(pattern: Pattern)
    | CreditCard(fieldIdValue: string, fieldRegex: seq<FieldRegex>)
    | ActivitiesChecked

  datatype FieldRule = FieldRule(fieldId: FieldId, validator: Validator, errorMsg: string)

  const NAME_MSG := "Name field can not be blank"
  const EMAIL_MSG := "Email must include a valid email address"
  const CC_NUM_MSG := "Please ensure the credit card is 13-16 digits"
  const ZIP_MSG := "Please ensure the zip is 5 digit"
  const CVV_MSG := "Please ensure the cvv code is 3 digits"
  const CARD_MSG := "Please ensure the credit card is 13-16 digits, the zip is 5 digits and the cvv code is 3 digits"
  const ACTIVITIES_MSG := "Please ensure at least one activity is selected"

  const NAME_RULE := FieldRule(Name, BasicRegExp(WordOnly), NAME_MSG)
  const EMAIL_RULE := FieldRule(Email, BasicRegExp(EmailShapePattern), EMAIL_MSG)
  const CARD_RULE := FieldRule(Payment, CreditCard("credit-card", [
    FieldRegex(CcNum, DigitRun(13, 16), CC_NUM_MSG),
    FieldRegex(Zip, DigitRun(5, 5), ZIP_MSG),
    FieldRegex(Cvv, DigitRun(3, 3), CVV_MSG)]), CARD_MSG)
  const ACTIVITIES_RULE := FieldRule(ActivitiesBox, ActivitiesChecked, ACTIVITIES_MSG)

  /** The rule table, in the order the submit pass runs it. */
  const FIELD_VALIDATIONS: seq<FieldRule> := [NAME_RULE, EMAIL_RULE, CARD_RULE, ACTIVITIES_RULE]

  /** One entry for the rule's field iff its value fails the rule's pattern. */
  function BasicRegExpValidates(rule: FieldRule, values: Values): (errors: seq<FieldError>)
    requires rule.validator.BasicRegExp?
    ensures |errors| <= 1
    ensures errors == [] <==> Matches(rule.validator.pattern, ValueOf(values, rule.fieldId))
    ensures forall e :: e in errors ==> e == FieldError(rule.fieldId, rule.errorMsg)
  {
    if Matches(rule.validator.pattern, ValueOf(values, rule.fieldId)) then []
    else [FieldError(rule.fieldId, rule.errorMsg)]
  }

  /** A sub-field whose value fails its pattern. */
  predicate FailsRegex(r: FieldRegex, values: Values) {
    !Matches(r.pattern, ValueOf(values, r.field))
  }

  /** The entry one sub-field contributes: its own message iff it fails. */
  function RegexEntry(r: FieldRegex, values: Values): seq<FieldError> {
    if FailsRegex(r, values) then [FieldError(r.field, r.errorMsg)] else []
  }

  /** The entries of the failing sub-fields, in table order. */
  function FieldRegexErrors(regexes: seq<FieldRegex>, values: Values): seq<FieldError> {
    if regexes == [] then [] else RegexEntry(regexes[0], values) + FieldRegexErrors(regexes[1..], values)
  }

  /** Every failing sub-field has its own entry, and every entry belongs to a failing sub-field. */
  lemma {:induction false} FieldRegexErrorsSound(regexes: seq<FieldRegex>, values: Values)
    ensures |FieldRegexErrors(regexes, values)| <= |regexes|
    ensures forall r :: r in regexes && FailsRegex(r, values) ==>
      FieldError(r.field, r.errorMsg) in FieldRegexErrors(regexes, values)
    ensures forall e :: e in FieldRegexErrors(regexes, values) ==>
      exists r :: r in regexes && FailsRegex(r, values) && e == FieldError(r.field, r.errorMsg)
  {
    if regexes != [] {
      FieldRegexErrorsSound(regexes[1..], values);
      forall r | r in regexes && FailsRegex(r, values)
        ensures FieldError(r.field, r.errorMsg) in FieldRegexErrors(regexes, values)
      {
        if r != regexes[0] {
          assert r in regexes[1..];
        }
      }
      forall e | e in FieldRegexErrors(regexes, values)
        ensures exists r :: r in regexes && FailsRegex(r, values) && e == FieldError(r.field, r.errorMsg)
      {
        if e !in RegexEntry(regexes[0], values) {
          assert e in FieldRegexErrors(regexes[1..], values);
          var r :| r in regexes[1..] && FailsRegex(r, values) && e == FieldError(r.field, r.errorMsg);
          assert r in regexes;
        }
      }
    }
  }

  /** `creditCardValidates`: the sub-field errors, but only while the payment select holds `fieldIdValue`. */
  function CreditCardErrors(rule: FieldRule, values: Values): seq<FieldError>
    requires rule.validator.CreditCard?
  {
    if ValueOf(values, rule.fieldId) == rule.validator.fieldIdValue then
      FieldRegexErrors(rule.validator.fieldRegex, values)
    else
      []
  }

  /** `activitiesValidates`: one entry iff no box that carries a cost is checked. */
  function ActivitiesErrors(rule: FieldRule, boxes: seq<Checkbox>): (errors: seq<FieldError>)
    ensures |errors| <= 1
    ensures forall e :: e in errors ==> e == FieldError(rule.fieldId, rule.errorMsg)
    ensures errors == [] <==> exists i :: 0 <= i < |boxes| && boxes[i].cost.Some? && boxes[i].checked
  {
    if AnyCostChecked(boxes) then [] else [FieldError(rule.fieldId, rule.errorMsg)]
  }

  /** `rule.validationfunction(rule)`. */
  function Validate(rule: FieldRule, values: Values, boxes: seq<Checkbox>): seq<FieldError> {
    match rule.validator
    case BasicRegExp(_) => BasicRegExpValidates(rule, values)
    case CreditCard(_, _) => CreditCardErrors(rule, values)
    case ActivitiesChecked => ActivitiesErrors(rule, boxes)
  }

  /** The outputs of all `rules`, concatenated in order; no rule is skipped. */
  function ErrorsOf(rules: seq<FieldRule>, values: Values, boxes: seq<Checkbox>): seq<FieldError> {
    if rules == [] then [] else Validate(rules[0], values, boxes) + ErrorsOf(rules[1..], values, boxes)
  }

  /** The error list one submit pass builds. */
  function AllFormErrors(values: Values, boxes: seq<Checkbox>): seq<FieldError> {
    ErrorsOf(FIELD_VALIDATIONS, values, boxes)
  }

  /** The name rule: the whole value is one or more word characters. */
  lemma NameRule(values: Values, boxes: seq<Checkbox>)
    ensures Validate(NAME_RULE, values, boxes) ==
      if |values.name| > 0 && AllWord(values.name) then [] else [FieldError(Name, NAME_MSG)]
  {
  }

  /** The e-mail rule of the table accepts exactly the addresses of the e-mail shape pattern. */
  lemma EmailRule(values: Values, boxes: seq<Checkbox>)
    ensures Validate(EMAIL_RULE, values, boxes) ==
      if EmailShape(values.email) then [] else [FieldError(Email, EMAIL_MSG)]
  {
    EmailShapeMatchesIff(values.email);
  }

  /**
   * The credit-card rule: nothing unless the payment select is exactly
   * 'credit-card'; otherwise one entry per failing sub-field, in the order
   * cc-num, zip, cvv, each with its own message.
   */
  lemma CardRule(values: Values, boxes: seq<Checkbox>)
    ensures Validate(CARD_RULE, values, boxes) ==
      if values.payment != "credit-card" then []
      else
        (if DigitRunMatches(values.ccNum, 13, 16) then [] else [FieldError(CcNum, CC_NUM_MSG)]) +
        (if DigitRunMatches(values.zip, 5, 5) then [] else [FieldError(Zip, ZIP_MSG)]) +
        (if DigitRunMatches(values.cvv, 3, 3) then [] else [FieldError(Cvv, CVV_MSG)])
  {
    var regexes := CARD_RULE.validator.fieldRegex;
    assert regexes == [regexes[0], regexes[1], regexes[2]];
    assert regexes[1..] == [regexes[1], regexes[2]];
    assert regexes[1..][1..] == [regexes[2]];
    assert FieldRegexErrors(regexes[1..][1..], values) == RegexEntry(regexes[2], values) + FieldRegexErrors([], values);
    assert FieldRegexErrors(regexes[1..], values) == RegexEntry(regexes[1], values) + FieldRegexErrors(regexes[1..][1..], values);
    assert FieldRegexErrors(regexes, values) == RegexEntry(regexes[0], values) + FieldRegexErrors(regexes[1..], values);
  }

  /** The activities rule: one entry iff no box that carries a cost is checked. */
  lemma ActivitiesRule(values: Values, boxes: seq<Checkbox>)
    ensures Validate(ACTIVITIES_RULE, values, boxes) ==
      if exists i :: 0 <= i < |boxes| && boxes[i].cost.Some? && boxes[i].checked then []
      else [FieldError(ActivitiesBox, ACTIVITIES_MSG)]
  {
  }

  /** The submit pass's list is the concatenation of the four validators' outputs, in table order. */
  lemma {:induction false} AllFormErrorsInOrder(values: Values, boxes: seq<Checkbox>)
    ensures AllFormErrors(values, boxes) ==
      Validate(NAME_RULE, values, boxes) + Validate(EMAIL_RULE, values, boxes) +
      Validate(CARD_RULE, values, boxes) + Validate(ACTIVITIES_RULE, values, boxes)
  {
    var rules := FIELD_VALIDATIONS;
    assert rules[1..] == [EMAIL_RULE, CARD_RULE, ACTIVITIES_RULE];
    assert rules[1..][1..] == [CARD_RULE, ACTIVITIES_RULE];
    assert rules[1..][1..][1..] == [ACTIVITIES_RULE];
    assert ErrorsOf(rules[1..][1..][1..], values, boxes) ==
      Validate(ACTIVITIES_RULE, values, boxes) + ErrorsOf([], values, boxes);
    assert ErrorsOf(rules[1..][1..], values, boxes) ==
      Validate(CARD_RULE, values, boxes) + ErrorsOf(rules[1..][1..][1..], values, boxes);
    assert ErrorsOf(rules[1..], values, boxes) ==
      Validate(EMAIL_RULE, values, boxes) + ErrorsOf(rules[1..][1..], values, boxes);
    assert ErrorsOf(rules, values, boxes) ==
      Validate(NAME_RULE, values, boxes) + ErrorsOf(rules[1..], values, boxes);
  }

  /** The card sub-fields pass, or another payment method is selected. */
  predicate CardAcceptable(values: Values) {
    values.payment == "credit-card" ==>
      && DigitRunMatches(values.ccNum, 13, 16)
      && DigitRunMatches(values.zip, 5, 5)
      && DigitRunMatches(values.cvv, 3, 3)
  }

  /** What a form must satisfy to be submitted. */
  ghost predicate FormAcceptable(values: Values, boxes: seq<Checkbox>) {
    && |values.name| > 0 && AllWord(values.name)
    && EmailShape(values.email)
    && CardAcceptable(values)
    && AnyCostChecked(boxes)
  }

  /** The list is empty, and submission goes ahead, exactly when the form is acceptable. */
  lemma AllFormErrorsEmptyIff(values: Values, boxes: seq<Checkbox>)
    ensures AllFormErrors(values, boxes) == [] <==> FormAcceptable(values, boxes)
  {
    AllFormErrorsInOrder(values, boxes);
    NameRule(values, boxes);
    EmailRule(values, boxes);
    CardRule(values, boxes);
    ActivitiesRule(values, boxes);
  }

  /** No field appears twice in the list a pass builds. */
  lemma AllFormErrorsDistinct(values: Values, boxes: seq<Checkbox>)
    ensures forall i, j :: 0 <= i < j < |AllFormErrors(values, boxes)| ==>
      AllFormErrors(values, boxes)[i].field != AllFormErrors(values, boxes)[j].field
  {
    var name, email, card, acts :=
      Validate(NAME_RULE, values, boxes), Validate(EMAIL_RULE, values, boxes),
      Validate(CARD_RULE, values, boxes), Validate(ACTIVITIES_RULE, values, boxes);
    assert RankIncreasing(name) && RanksWithin(name, 0, 0) by {
      NameRule(values, boxes);
    }
    assert RankIncreasing(email) && RanksWithin(email, 1, 1) by {
      EmailRule(values, boxes);
    }
    assert RankIncreasing(acts) && RanksWithin(acts, 6, 6) by {
      ActivitiesRule(values, boxes);
    }
    assert RankIncreasing(card) && RanksWithin(card, 2, 5) by {
      CardRanked(values, boxes);
    }
    RankIncreasingAppend(name, email, 0, 0, 1);
    RankIncreasingAppend(name + email, card, 0, 1, 5);
    RankIncreasingAppend(name + email + card, acts, 0, 5, 6);
    var all := AllFormErrors(values, boxes);
    assert all == name + email + card + acts by {
      AllFormErrorsInOrder(values, boxes);
    }
    assert RankIncreasing(all);
  }

  /** The card rule's entries come in the order cc-num, zip, cvv. */
  lemma CardRanked(values: Values, boxes: seq<Checkbox>)
    ensures RankIncreasing(Validate(CARD_RULE, values, boxes))
    ensures RanksWithin(Validate(CARD_RULE, values, boxes), 2, 5)
  {
    var card := Validate(CARD_RULE, values, boxes);
    if values.payment != "credit-card" {
      assert card == [] by {
        CardRule(values, boxes);
      }
    } else {
      var ccNum := if DigitRunMatches(values.ccNum, 13, 16) then [] else [FieldError(CcNum, CC_NUM_MSG)];
      var zip := if DigitRunMatches(values.zip, 5, 5) then [] else [FieldError(Zip, ZIP_MSG)];
      var cvv := if DigitRunMatches(values.cvv, 3, 3) then [] else [FieldError(Cvv, CVV_MSG)];
      assert card == ccNum + zip + cvv by {
        CardRule(values, boxes);
      }
      RankIncreasingAppend(ccNum, zip, 2, 3, 4);
      RankIncreasingAppend(ccNum + zip, cvv, 2, 4, 5);
    }
  }

  /** Position of a field in the order the submit pass reports fields. */
  function Rank(f: FieldId): nat {
    match f
    case Name => 0
    case Email => 1
    case Payment => 2
    case CcNum => 3
    case Zip => 4
    case Cvv => 5
    case ActivitiesBox => 6
  }

  /** The fields of `errs` appear in strictly increasing `Rank`, so none appears twice. */
  predicate RankIncreasing(errs: seq<FieldError>) {
    forall i, j :: 0 <= i < j < |errs| ==> Rank(errs[i].field) < Rank(errs[j].field)
  }

  predicate RanksWithin(errs: seq<FieldError>, lo: nat, hi: nat) {
    forall i :: 0 <= i < |errs| ==> lo <= Rank(errs[i].field) <= hi
  }

  lemma RankIncreasingAppend(a: seq<FieldError>, b: seq<FieldError>, lo: nat, mid: nat, hi: nat)
    requires RankIncreasing(a) && RanksWithin(a, lo, mid)
    requires RankIncreasing(b) && RanksWithin(b, mid + 1, hi)
    requires lo <= mid < hi
    ensures RankIncreasing(a + b) && RanksWithin(a + b, lo, hi)
  {
    forall i, j | 0 <= i < j < |a + b| ensures Rank((a + b)[i].field) < Rank((a + b)[j].field) {
      if j < |a| {
      } else if i >= |a| {
        assert (a + b)[i] == b[i - |a|] && (a + b)[j] == b[j - |a|];
      } else {
        assert (a + b)[i] == a[i] && (a + b)[j] == b[j - |a|];
      }
    }
    forall i | 0 <= i < |a + b| ensures lo <= Rank((a + b)[i].field) <= hi {
      if i >= |a| {
        assert (a + b)[i] == b[i - |a|];
      } else {
        assert (a + b)[i] == a[i];
      }
    }
  }

  /** An empty name with everything else acceptable gives exactly one entry, for the name. */
  lemma NameOnlyError(values: Values, boxes: seq<Checkbox>)
    requires values.name == ""
    requires EmailShape(values.email)
    requires CardAcceptable(values)
    requires AnyCostChecked(boxes)
    ensures AllFormErrors(values, boxes) == [FieldError(Name, NAME_MSG)]
  {
    AllFormErrorsInOrder(values, boxes);
    EmailRule(values, boxes);
    CardRule(values, boxes);
  }

  /** Card sub-fields are never reported while another payment method is selected, however wrong their values. */
  lemma NoCardErrorsUnlessCreditCard(values: Values, boxes: seq<Checkbox>)
    requires values.payment != "credit-card"
    ensures forall e :: e in AllFormErrors(values, boxes) ==> e.field !in {CcNum, Zip, Cvv}
  {
    AllFormErrorsInOrder(values, boxes);
    NameRule(values, boxes);
    EmailRule(values, boxes);
    CardRule(values, boxes);
  }

  const MIN_LENGTH_MSG := "Email must have at a minimum 4 characters"

  /** The message of the e-mail keyup rule; the empty string means no error. */
  function EmailKeyupMessage(value: string): (message: string)
    ensures message in {"", MIN_LENGTH_MSG, EMAIL_MSG}
    ensures message == MIN_LENGTH_MSG <==> Utf16Length(value) < 5
  {
    if Utf16Length(value) < 5 then MIN_LENGTH_MSG
    else if !EmailDotComMatches(value) then EMAIL_MSG
    else ""
  }

  /**
   * The keyup rule: the length check, in UTF-16 code units, comes first; a
   * value of 5 or more units fails with the other message iff it is not of
   * the `.com` shape. It accepts exactly the `.com` shape (the length check
   * only picks the message, as every such address is at least 7 units long).
   */
  lemma EmailKeyupRule(value: string)
    ensures Utf16Length(value) < 5 ==> EmailKeyupMessage(value) == MIN_LENGTH_MSG
    ensures Utf16Length(value) >= 5 && !EmailDotCom(value) ==> EmailKeyupMessage(value) == EMAIL_MSG
    ensures EmailKeyupMessage(value) == "" <==> EmailDotCom(value)
  {
    EmailDotComMatchesIff(value);
    if EmailDotCom(value) {
      EmailDotComLength(value);
    }
  }

  /** The length check counts code units: four characters, one of them outside the Basic Multilingual Plane, pass it. */
  lemma EmailKeyupCountsCodeUnits()
    ensures EmailKeyupMessage("ab\U{1F600}c") == EMAIL_MSG
  {
    var s := "ab\U{1F600}c";
    Utf16LengthSurrogatePair();
    assert WordEnd(s, 0) == 2 by {
      WordEndAt(s, 0, 2);
    }
  }

  /** An address the keyup rule accepts also passes the submit pass's e-mail rule; not the other way round. */
  lemma EmailKeyupStricterThanSubmit(values: Values, boxes: seq<Checkbox>)
    ensures EmailKeyupMessage(values.email) == "" ==> Validate(EMAIL_RULE, values, boxes) == []
    ensures var other := values.(email := "ab@cd.org");
      Validate(EMAIL_RULE, other, boxes) == [] && EmailKeyupMessage(other.email) != ""
  {
    EmailKeyupRule(values.email);
    EmailRule(values, boxes);
    if EmailDotCom(values.email) {
      EmailDotComIsEmailShape(values.email);
    }
    var other := values.(email := "ab@cd.org");
    EmailShapeIsWiderThanDotCom();
    EmailKeyupRule(other.email);
    EmailRule(other, boxes);
  }

}
