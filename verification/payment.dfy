/**
 * The payment methods and the page elements shown only for each of them,
 * and the visibility that choosing a method leaves behind.
 */
module Payment {

  /** A payment method and the classes of the elements that belong to it. */
  datatype PaymentOption = PaymentOption(kind: string, fields: seq<string>)

  const PAYMENT_OPTIONS: seq<PaymentOption> := [
    PaymentOption("credit-card", ["month-box", "year-box", "credit-card-box"]),
    PaymentOption("paypal", ["paypal"]),
    PaymentOption("bitcoin", ["bitcoin"])]

  /** `visible` after setting every element of `fields` to `shown`, one after the other. */
  function ShowAll(visible: map<string, bool>, fields: seq<string>, shown: bool): map<string, bool>
    decreases fields
  {
    if fields == [] then visible else ShowAll(visible[fields[0] := shown], fields[1..], shown)
  }

  /** `visible` after walking `options` in order: the fields of the option of kind `choice` shown, all others hidden. */
  function VisibilityAfter(visible: map<string, bool>, options: seq<PaymentOption>, choice: string): map<string, bool>
    decreases options
  {
    if options == [] then visible
    else VisibilityAfter(ShowAll(visible, options[0].fields, options[0].kind == choice), options[1..], choice)
  }

  /** Setting a list of elements touches those elements and no other. */
  lemma {:induction false} ShowAllAt(visible: map<string, bool>, fields: seq<string>, shown: bool, f: string)
    ensures f in fields ==> f in ShowAll(visible, fields, shown) && ShowAll(visible, fields, shown)[f] == shown
    ensures f !in fields ==> (f in ShowAll(visible, fields, shown) <==> f in visible)
    ensures f !in fields && f in visible ==> ShowAll(visible, fields, shown)[f] == visible[f]
    decreases fields
  {
    if fields != [] {
      ShowAllAt(visible[fields[0] := shown], fields[1..], shown, f);
      if f in fields && f !in fields[1..] {
        assert f == fields[0];
      }
    }
  }

  /** No element belongs to two options. */
  ghost predicate Disjoint(options: seq<PaymentOption>) {
    forall i, j, f :: 0 <= i < j < |options| && f in options[i].fields ==> f !in options[j].fields
  }

  /** An element that belongs to some option. */
  ghost predicate OptionField(options: seq<PaymentOption>, f: string) {
    exists i :: 0 <= i < |options| && f in options[i].fields
  }

  /**
   * With disjoint options, an element of option `i` ends up shown iff that
   * option's kind is `choice`; an element of no option keeps whatever it had.
   */
  lemma {:induction false} VisibilityAfterAt(visible: map<string, bool>, options: seq<PaymentOption>, choice: string, f: string)
    requires Disjoint(options)
    ensures forall i :: 0 <= i < |options| && f in options[i].fields ==>
      f in VisibilityAfter(visible, options, choice) &&
      VisibilityAfter(visible, options, choice)[f] == (options[i].kind == choice)
    ensures !OptionField(options, f) ==>
      (f in VisibilityAfter(visible, options, choice) <==> f in visible) &&
      (f in visible ==> VisibilityAfter(visible, options, choice)[f] == visible[f])
    decreases options
  {
    if options != [] {
      var first := ShowAll(visible, options[0].fields, options[0].kind == choice);
      assert Disjoint(options[1..]) by {
        forall i, j, g | 0 <= i < j < |options[1..]| && g in options[1..][i].fields
          ensures g !in options[1..][j].fields
        {
          assert options[1..][i] == options[i + 1] && options[1..][j] == options[j + 1];
        }
      }
      VisibilityAfterAt(first, options[1..], choice, f);
      ShowAllAt(visible, options[0].fields, options[0].kind == choice, f);
      forall i | 0 <= i < |options| && f in options[i].fields
        ensures f in VisibilityAfter(visible, options, choice) &&
          VisibilityAfter(visible, options, choice)[f] == (options[i].kind == choice)
      {
        if i == 0 {
          assert !OptionField(options[1..], f) by {
            forall j | 0 <= j < |options[1..]| ensures f !in options[1..][j].fields {
              assert options[1..][j] == options[j + 1];
            }
          }
        } else {
          assert options[1..][i - 1] == options[i];
          assert f !in options[0].fields;
        }
      }
      if !OptionField(options, f) {
        assert f !in options[0].fields;
        assert !OptionField(options[1..], f) by {
          forall j | 0 <= j < |options[1..]| ensures f !in options[1..][j].fields {
            assert options[1..][j] == options[j + 1];
          }
        }
      }
    }
  }

  lemma PaymentOptionsDisjoint()
    ensures Disjoint(PAYMENT_OPTIONS)
  {
  }

  /**
   * `paymentOptionSet(choice)`: each element of a payment option is shown iff
   * the option's kind is `choice`, so at most one option's elements are
   * shown and an unknown `choice` hides them all; other elements are left
   * as they were.
   */
  lemma PaymentVisibility(visible: map<string, bool>, choice: string)
    ensures forall i, f :: 0 <= i < |PAYMENT_OPTIONS| && f in PAYMENT_OPTIONS[i].fields ==>
      f in VisibilityAfter(visible, PAYMENT_OPTIONS, choice) &&
      VisibilityAfter(visible, PAYMENT_OPTIONS, choice)[f] == (PAYMENT_OPTIONS[i].kind == choice)
    ensures forall f :: !OptionField(PAYMENT_OPTIONS, f) ==>
      (f in VisibilityAfter(visible, PAYMENT_OPTIONS, choice) <==> f in visible) &&
      (f in visible ==> VisibilityAfter(visible, PAYMENT_OPTIONS, choice)[f] == visible[f])
  {
    PaymentOptionsDisjoint();
    forall f {
      VisibilityAfterAt(visible, PAYMENT_OPTIONS, choice, f);
    }
  }

  /** A choice that is no payment method's kind hides every payment element. */
  lemma UnknownChoiceHidesAll(visible: map<string, bool>, choice: string)
    requires choice != "credit-card" && choice != "paypal" && choice != "bitcoin"
    ensures forall i, f :: 0 <= i < |PAYMENT_OPTIONS| && f in PAYMENT_OPTIONS[i].fields ==>
      f in VisibilityAfter(visible, PAYMENT_OPTIONS, choice) && !VisibilityAfter(visible, PAYMENT_OPTIONS, choice)[f]
  {
    PaymentVisibility(visible, choice);
  }

  /** Choosing PayPal shows the PayPal element and hides the card and Bitcoin elements. */
  lemma PayPalExample(visible: map<string, bool>)
    ensures var after := VisibilityAfter(visible, PAYMENT_OPTIONS, "paypal");
      && "paypal" in after && after["paypal"]
      && "bitcoin" in after && !after["bitcoin"]
      && "month-box" in after && !after["month-box"]
      && "year-box" in after && !after["year-box"]
      && "credit-card-box" in after && !after["credit-card-box"]
  {
    PaymentVisibility(visible, "paypal");
    assert "paypal" in PAYMENT_OPTIONS[1].fields;
    assert "bitcoin" in PAYMENT_OPTIONS[2].fields;
    assert "month-box" in PAYMENT_OPTIONS[0].fields;
    assert "year-box" in PAYMENT_OPTIONS[0].fields;
    assert "credit-card-box" in PAYMENT_OPTIONS[0].fields;
  }

}
