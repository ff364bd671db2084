# Registration form: validation and dependent fields

A model of `js/script.js`, the client-side script of a conference
registration form (name, e-mail, job title, t-shirt design and colour,
activities, payment). The script intercepts submission, runs a rule table
over the fields, marks the fields that failed, and keeps the dependent
fields in step with the user's choices:

- the payment elements shown for the chosen payment method;
- the colour options offered for the chosen design;
- the time-slot conflicts between activities;
- the activities total.

Layout, one module per file:

- `options.dfy` — `Option`.
- `patterns.dfy` (`Patterns`) — the regular expressions of the rules, written as predicates on strings.
  - JavaScript's `\w` and `\d`.
  - For each e-mail pattern: a declarative ghost definition (the split the pattern reads), a matcher that scans once, and a lemma proving the two agree.
- `activities.dfy` (`ActivityList`) — the activity checkboxes and the functions that specify the cost total and the conflict rule.
- `rules.dfy` (`Rules`) — the fields, a snapshot of their values, the rule table `FIELD_VALIDATIONS` with the source's messages, the three validators, and the list a submit pass builds.
  - Also the message of the e-mail keyup rule.
- `payment.dfy` (`Payment`) — the payment methods, the elements each one owns, and the visibility a choice leaves.
- `errors.dfy` (`ErrorState`) — the error list and the valid / not-valid markers.
  - What clearing, rendering, a submit pass and the e-mail keyup rule do to them.
  - The invariant that the markers agree with the list.
- `handlers.dfy` (`Handlers`) — class `Page`, holding the state the handlers write:
  - the error list and the markers;
  - payment visibility;
  - the checkbox array;
  - the colour option array;
  - the total, the e-mail message and the two flags.

  Each handler is a method. Where the source loops, the method loops too, and each method is proved against the specification functions above.

What the user types or selects is a parameter of the handler that reads it:
a `Values` record, the chosen design, the selected flags of the title
options, or whether the event target is an input.

The model follows the script as written:

- **Name field.** The name pattern `/^\w+$/` accepts only word characters. A name containing a space is rejected.
- **Design change.** The handler does not reset the selected colour when the design changes. `Handlers.Page.DesignChanged` leaves `selected` untouched, even on an option it hides.

## Model

| member | source | states |
|---|---|---|
| Patterns.WordOnlyMatches | js/script.js:27 | defines `/^\w+$/`: one or more word characters and nothing else |
| Patterns.DigitRunMatches | js/script.js:41-43 | defines `/^\d{min,max}$/`: between min and max digits and nothing else |
| Patterns.EmailShapeMatches | js/script.js:33 | the one-pass matcher of the submit rule's e-mail pattern (its meaning is `EmailShapeMatchesIff`) |
| Patterns.EmailDotComMatches | js/script.js:275 | the one-pass matcher of the keyup rule's `.com` pattern (its meaning is `EmailDotComMatchesIff`) |
| Patterns.Utf16Length | js/script.js:278 | JavaScript's `length`: at least the number of characters and at most twice it, a character outside the Basic Multilingual Plane counting twice |
| Patterns.Utf16LengthOfBmp | js/script.js:278 | for a string of Basic Multilingual Plane characters, `length` is the number of characters |
| Patterns.Utf16LengthSurrogatePair | js/script.js:278 | "ab😀c" has 4 characters but a `length` of 5 |
| Patterns.EmailShapeMatchesIff | js/script.js:33 | the scanning matcher accepts a string iff it splits as word chars, '@', word chars, '.', 2 to 10 word chars, anything after |
| Patterns.EmailShapeNeedsTwoAfterDot | js/script.js:33 | with no end anchor, `\w{2,10}` reduces to at least two word chars after the dot |
| Patterns.EmailShapeIgnoresTrailingText | js/script.js:33 | any text appended to an accepted address keeps it accepted |
| Patterns.EmailDotComMatchesIff | js/script.js:275 | the scanning matcher accepts exactly word chars, '@', word chars, then ".com" at the end |
| Patterns.EmailDotComIsEmailShape | js/script.js:275 | every address of the `.com` pattern also has the submit rule's e-mail shape |
| Patterns.EmailShapeIsWiderThanDotCom | js/script.js:33 | "ab@cd.org" has the submit rule's shape but not the `.com` shape |
| Patterns.EmailDotComLength | js/script.js:275-278 | a `.com` address has at least 7 characters, all in the Basic Multilingual Plane, so its `length` is at least 7 and the length check never rejects one |
| ActivityList.CostTotal | js/script.js:242-249 | defines the total: the sum of `data-cost` over the checked boxes that carry one |
| ActivityList.CostTotalAppend | js/script.js:244-249 | the total over two lists of boxes is the sum of their totals |
| ActivityList.CostTotalNoneChecked | js/script.js:244-249 | with no box checked the total is 0 |
| ActivityList.CostTotalPositive | js/script.js:244-249 | a positive total means some box carrying a cost is checked |
| ActivityList.CheckingAddsCost | js/script.js:246-248 | checking one more box raises the total by exactly its cost, or by 0 if it carries none |
| ActivityList.ToggleOne | js/script.js:219-232 | defines one iteration: a box of the clicked box's slot with another name gets `disabled` equal to the clicked box's `checked` |
| ActivityList.Toggled | js/script.js:214-234 | defines the whole pass: `ToggleOne` applied to every box in order |
| ActivityList.ToggledLength | js/script.js:218 | the conflict rule keeps the number of boxes |
| ActivityList.ToggledAt | js/script.js:218-233 | box i after the rule is box i updated against the clicked box alone |
| ActivityList.ToggledEffect | js/script.js:214-234 | the clicked box and boxes of other slots are unchanged; other boxes of the same slot become disabled iff the clicked box is checked; only `disabled` changes |
| ActivityList.ToggledTwice | js/script.js:222-231 | after two changes of the same box, the list depends only on the second, so unchecking re-enables the slot and repeating changes nothing |
| ActivityList.ToggledKeepsCost | js/script.js:214-234 | the conflict rule never changes the cost total |
| Rules.CreditCardErrors | js/script.js:98-114 | defines the card validator: nothing unless the payment select holds the rule's value, otherwise the failing sub-fields' entries in table order |
| Rules.ActivitiesErrors | js/script.js:131-146 | at most one entry, the rule's own, present iff no box that carries a cost is checked |
| Rules.Validate | js/script.js:258 | defines `rule.validationfunction(rule)`: dispatch on the rule's validator |
| Rules.AllFormErrors | js/script.js:255-262 | defines a pass's list: every rule's entries concatenated in table order |
| Rules.CardAcceptable | js/script.js:37-46 | defines acceptable card fields: 13-16 digits, 5 digits and 3 digits, or another payment method |
| Rules.BasicRegExpValidates | js/script.js:117-128 | at most one entry, for the rule's field and message, present iff the value fails the pattern |
| Rules.FieldRegexErrorsSound | js/script.js:98-114 | every failing card sub-field has its own entry; every entry names a failing sub-field; no more entries than sub-fields |
| Rules.NameRule | js/script.js:25-30 | the name rule reports "Name field can not be blank" iff the name is empty or has a non-word char |
| Rules.EmailRule | js/script.js:31-36 | the e-mail rule reports its message iff the address lacks the e-mail shape |
| Rules.CardRule | js/script.js:37-46 | nothing unless the payment is "credit-card"; otherwise the cc-num (13-16 digits), zip (5) and cvv (3) failures, in that order, each with its own message |
| Rules.ActivitiesRule | js/script.js:47-51 | the activities rule reports its message iff no box that carries a cost is checked |
| Rules.AllFormErrorsInOrder | js/script.js:255-262 | a pass's list is the name, e-mail, card and activities entries concatenated in table order |
| Rules.AllFormErrorsEmptyIff | js/script.js:255-267 | the list is empty, and submission proceeds, iff name, e-mail, card (when chosen) and activities are all acceptable |
| Rules.AllFormErrorsDistinct | js/script.js:24-53 | no field appears twice in a pass's list |
| Rules.CardRanked | js/script.js:40-43 | the card entries come in the order cc-num, zip, cvv |
| Rules.NameOnlyError | js/script.js:24-53 | an empty name with everything else acceptable (valid card fields, or a payment other than credit card) yields exactly the name entry |
| Rules.NoCardErrorsUnlessCreditCard | js/script.js:98-114 | card sub-fields are never reported while another payment method is selected |
| Rules.EmailKeyupMessage | js/script.js:275-282 | one of the empty string and the two messages; the minimum-length message iff `length` is under 5 |
| Rules.EmailKeyupCountsCodeUnits | js/script.js:278-281 | "ab😀c" passes the length check and gets the e-mail message |
| Rules.EmailKeyupRule | js/script.js:275-282 | a value under 5 UTF-16 code units gets the minimum-length message; a longer value without the `.com` shape gets the e-mail message; no message iff the `.com` shape holds |
| Rules.EmailKeyupStricterThanSubmit | js/script.js:275-282 | the keyup rule only accepts addresses the submit rule accepts, and rejects some the submit rule accepts |
| Payment.ShowAll | js/script.js:86-92 | defines one inner loop: each listed element set to the same visibility, in order |
| Payment.VisibilityAfter | js/script.js:83-95 | defines the outer loop: each method's elements shown iff its kind is the choice, methods in table order |
| Payment.ShowAllAt | js/script.js:86-92 | setting a method's elements touches exactly those elements |
| Payment.VisibilityAfterAt | js/script.js:83-95 | with disjoint methods, an element of method i is shown iff i's kind is the choice; elements of no method keep their state |
| Payment.PaymentOptionsDisjoint | js/script.js:8-20 | no element belongs to two payment methods |
| Payment.PaymentVisibility | js/script.js:83-95 | after a choice, exactly the chosen method's elements are visible and the other methods' are hidden |
| Payment.UnknownChoiceHidesAll | js/script.js:83-95 | a choice that is no method's kind hides every payment element |
| Payment.PayPalExample | js/script.js:236-238 | choosing "paypal" shows the PayPal element and hides the card and Bitcoin elements |
| ErrorState.Mark | js/script.js:149-165 | defines a marking loop: each listed field given the marker, left to right |
| ErrorState.Cleared | js/script.js:158-165 | defines `clearFormErrors`: listed fields marked valid, list emptied |
| ErrorState.Rendered | js/script.js:149-155 | defines `handleFormErrors`: listed fields marked not valid, list kept |
| ErrorState.SubmitStep | js/script.js:255-267 | defines a submit pass on list and markers: clear, set the pass's list, render |
| ErrorState.EmailKeyupStep | js/script.js:270-292 | defines the keyup rule on list and markers: e-mail marked valid; on an error marked not valid and the list emptied |
| ErrorState.MarkAt | js/script.js:149-165 | marking sets every listed field to the marker and leaves every other field as it was |
| ErrorState.SubmitMarkers | js/script.js:255-267 | after a pass, its fields are marked not valid, fields only the previous list held are marked valid, others unchanged |
| ErrorState.SubmitKeepsConsistent | js/script.js:255-267 | if markers agreed with the list before a pass, they agree after it |
| ErrorState.SubmitIdempotent | js/script.js:255-267 | repeating a pass on the same input changes nothing |
| ErrorState.AcceptedSubmit | js/script.js:255-267 | from markers that agree with the list, an acceptable form leaves an empty list and no field marked not valid |
| ErrorState.NameOnlySubmit | js/script.js:255-267 | from markers that agree with the list, an empty name with the rest acceptable (whatever the payment method) marks the name field, and only it, not valid |
| ErrorState.EmailKeyupBreaksConsistency | js/script.js:284-291 | an e-mail keyup error marks the field not valid without listing it |
| ErrorState.StaleMarkerAfterEmailKeyup | js/script.js:284-291 | the keyup error empties the list without unmarking, so a corrected name can stay marked not valid after the next pass |
| Handlers.CreditCardValidates | js/script.js:98-114 | its loop computes exactly the card entries `CreditCardErrors` specifies |
| Handlers.Page.constructor | js/script.js:309-318 | on load: no errors or markers, other-job-role hidden, colour select disabled, credit-card elements shown |
| Handlers.Page.ClearFormErrors | js/script.js:158-165 | every listed field marked valid, then the list emptied |
| Handlers.Page.HandleFormErrors | js/script.js:149-155 | every listed field marked not valid; the list is kept |
| Handlers.Page.ActivitiesValidates | js/script.js:131-146 | the early-exit loop yields the activities entry iff no box that carries a cost is checked |
| Handlers.Page.RunValidation | js/script.js:258 | dispatching on the rule's validator yields that validator's entries |
| Handlers.Page.RunValidations | js/script.js:257-262 | appends every rule's entries to the list, in table order |
| Handlers.Page.Submit | js/script.js:255-267 | clear, collect, render; cancelled iff the form is not acceptable; keeps markers consistent with the list |
| Handlers.Page.EmailKeyup | js/script.js:270-292 | the keyup rule's step on list and markers; cancelled iff not `.com`; message shown only on error |
| Handlers.Page.PaymentOptionSet | js/script.js:83-95 | the nested loops leave exactly the chosen method's elements visible, the others hidden, and other elements untouched |
| Handlers.Page.ToggleSimultaneousActivities | js/script.js:214-234 | the loop leaves the checkbox array as `Toggled` specifies (see `ToggledEffect`) |
| Handlers.Page.ActivitiesCost | js/script.js:242-250 | the sum of the costs of the checked boxes that carry one; 0 when the target is not an input |
| Handlers.Page.ActivitiesChanged | js/script.js:241-252 | the displayed total becomes that sum |
| Handlers.Page.DesignChanged | js/script.js:182-195 | the colour select is enabled unless the placeholder is chosen; exactly the options with no theme or the chosen theme are shown; nothing else changes |
| Handlers.Page.TitleChanged | js/script.js:171-179 | the other-job-role field is visible iff the last title option is selected |

## Left out

- Lookup of elements by id or class, the attachment of listeners, focus and blur handling, and `preventDefault`. Each handler is a method of `Page`, and `preventDefault` becomes the returned `cancelled` flag.
- CSS and presentation. Each field's `valid` / `not-valid` class pair and the display of its message element are one `Marker`. The `disabled` classes are the checkbox's `disabled` flag. The `visibility` and `display` strings are booleans. The "Total: $" text is a number.
- The text `handleFormErrors` shows for a failing field comes from the page's markup, which is not part of this model. Only the e-mail keyup handler writes a message, and `emailMessage` models it.
- A general regular-expression engine. Each of the six patterns is its own predicate in `Patterns`.
- JavaScript's numeric coercion of `data-cost`. A cost is a `nat`, and a missing or empty attribute is `None` (both are false in the source's test).
- Inputs other than the checkboxes. `activitiesValidates` and the cost total scan every `input` element, but only the activity checkboxes carry `data-cost`, so the model scans only the checkboxes.
- Handlers.Page.ToggleSimultaneousActivities: the clicked input is given by its index in the checkbox list rather than as an element.
- The form-wide keyup handler (js/script.js:295-307), which re-runs single rules as the user types, is not modelled.
- The page-load script is modelled only by the `Page` constructor.
  - The constructor shows the credit-card elements, hides the other-job-role field and disables the colour select.
  - It does not select the payment option, since the selected payment is a parameter of the submit handler.
- `CARD_MSG`, the card rule's own message, appears in the rule table but no validator reports it. The model keeps it in the table, as the script does.
- The e-mail keyup handler's message says "minimum 4 characters" but rejects values shorter than 5. The model keeps both as written.
- Handlers.Page.TitleChanged: requires at least one title option. With none, the script's read of the last option throws a TypeError, and the model does not model that exception.
