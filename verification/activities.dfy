/**
 * The activity checkboxes: what the cost total, the activities rule and the
 * time-slot conflict rule read from them, and what the conflict rule writes.
 */
module ActivityList {
  import opened Options

  /**
   * A checkbox input of the activities list. `cost` is the `data-cost`
   * attribute, None when it is missing or empty (both read as false in the
   * source's tests); `dayAndTime` is the `data-day-and-time` attribute, None
   * when it is missing.
   */
  datatype Checkbox = Checkbox(
    name: string,
    cost: Option<nat>,
    dayAndTime: Option<string>,
    checked: bool,
    disabled: bool)

  /** What one box adds to the total: its cost when it has one and is checked. */
  function CostOf(b: Checkbox): nat {
    if b.cost.Some? && b.checked then b.cost.value else 0
  }

  /** The sum of `data-cost` over the checked boxes that carry a cost. */
  function CostTotal(s: seq<Checkbox>): nat {
    if s == [] then 0 else CostOf(s[0]) + CostTotal(s[1..])
  }

  /** Some box that carries a cost is checked. */
  predicate AnyCostChecked(s: seq<Checkbox>) {
    exists i :: 0 <= i < |s| && s[i].cost.Some? && s[i].checked
  }

  lemma {:induction false} CostTotalAppend(a: seq<Checkbox>, b: seq<Checkbox>)
    ensures CostTotal(a + b) == CostTotal(a) + CostTotal(b)
  {
    if a != [] {
      assert (a + b)[1..] == a[1..] + b;
      CostTotalAppend(a[1..], b);
    } else {
      assert a + b == b;
    }
  }

  /** With nothing checked the total is 0. */
  lemma {:induction false} CostTotalNoneChecked(s: seq<Checkbox>)
    requires forall i :: 0 <= i < |s| ==> !s[i].checked
    ensures CostTotal(s) == 0
  {
    if s != [] {
      CostTotalNoneChecked(s[1..]);
    }
  }

  /** A positive total means some box with a cost is checked (so the activities rule passes). */
  lemma {:induction false} CostTotalPositive(s: seq<Checkbox>)
    requires CostTotal(s) > 0
    ensures AnyCostChecked(s)
  {
    if CostOf(s[0]) == 0 {
      CostTotalPositive(s[1..]);
      var i :| 0 <= i < |s[1..]| && s[1..][i].cost.Some? && s[1..][i].checked;
      assert s[i + 1] == s[1..][i];
    }
  }

  /** Checking one more box raises the total by that box's cost. */
  lemma {:induction false} CheckingAddsCost(s: seq<Checkbox>, i: nat)
    requires i < |s| && !s[i].checked
    ensures CostTotal(s[i := s[i].(checked := true)]) ==
            CostTotal(s) + (if s[i].cost.Some? then s[i].cost.value else 0)
  {
    var t := s[i := s[i].(checked := true)];
    if i == 0 {
      assert t[1..] == s[1..];
    } else {
      assert t[1..] == s[1..][i - 1 := s[i].(checked := true)];
      CheckingAddsCost(s[1..], i - 1);
    }
  }

  /**
   * Whether the change of `clicked` affects `b`: same `data-day-and-time`
   * (two missing tags are equal) and a different name.
   */
  predicate Conflicts(b: Checkbox, clicked: Checkbox) {
    b.dayAndTime == clicked.dayAndTime && b.name != clicked.name
  }

  /** One box after a change of `clicked`: a conflicting box is disabled iff `clicked` is checked. */
  function ToggleOne(b: Checkbox, clicked: Checkbox): Checkbox {
    if Conflicts(b, clicked) then b.(disabled := clicked.checked) else b
  }

  /** The checkbox list after a change of `clicked`. */
  function Toggled(s: seq<Checkbox>, clicked: Checkbox): seq<Checkbox> {
    if s == [] then [] else [ToggleOne(s[0], clicked)] + Toggled(s[1..], clicked)
  }

  lemma {:induction false} ToggledAt(s: seq<Checkbox>, clicked: Checkbox, i: nat)
    requires i < |s|
    ensures |Toggled(s, clicked)| == |s|
    ensures Toggled(s, clicked)[i] == ToggleOne(s[i], clicked)
  {
    if i == 0 {
      ToggledLength(s[1..], clicked);
    } else {
      ToggledAt(s[1..], clicked, i - 1);
    }
  }

  lemma {:induction false} ToggledLength(s: seq<Checkbox>, clicked: Checkbox)
    ensures |Toggled(s, clicked)| == |s|
  {
    if s != [] {
      ToggledLength(s[1..], clicked);
    }
  }

  /**
   * What a change does to every box: the clicked box, and every box of
   * another time slot, stays as it was; every other box of the same slot
   * becomes disabled iff the clicked box is checked; nothing but `disabled`
   * ever changes.
   */
  lemma ToggledEffect(s: seq<Checkbox>, k: nat)
    requires k < |s|
    ensures |Toggled(s, s[k])| == |s|
    ensures Toggled(s, s[k])[k] == s[k]
    ensures forall i :: 0 <= i < |s| && s[i].dayAndTime != s[k].dayAndTime ==>
      Toggled(s, s[k])[i] == s[i]
    ensures forall i :: 0 <= i < |s| && Conflicts(s[i], s[k]) ==>
      Toggled(s, s[k])[i] == s[i].(disabled := s[k].checked)
    ensures forall i :: 0 <= i < |s| ==>
      Toggled(s, s[k])[i] == s[i].(disabled := Toggled(s, s[k])[i].disabled)
  {
    ToggledLength(s, s[k]);
    forall i | 0 <= i < |s| ensures Toggled(s, s[k])[i] == ToggleOne(s[i], s[k]) {
      ToggledAt(s, s[k], i);
    }
  }

  /**
   * The last change wins: after two changes of the same box (same name and
   * slot) the list depends on the second only. In particular checking and
   * then unchecking a box re-enables every box of its slot, and repeating a
   * change changes nothing.
   */
  lemma {:induction false} ToggledTwice(s: seq<Checkbox>, first: Checkbox, second: Checkbox)
    requires first.name == second.name && first.dayAndTime == second.dayAndTime
    ensures Toggled(Toggled(s, first), second) == Toggled(s, second)
  {
    if s != [] {
      ToggledTwice(s[1..], first, second);
    }
  }

  /** The conflict rule never changes the cost total. */
  lemma {:induction false} ToggledKeepsCost(s: seq<Checkbox>, clicked: Checkbox)
    ensures CostTotal(Toggled(s, clicked)) == CostTotal(s)
  {
    if s != [] {
      ToggledKeepsCost(s[1..], clicked);
      assert Toggled(s, clicked)[1..] == Toggled(s[1..], clicked);
    }
  }

}
