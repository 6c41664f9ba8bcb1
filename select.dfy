/**
 * The select field adapter (src/components/shared/form/Select.tsx): which
 * options show as selected for the field's value, and what is written back to
 * the form when the selection changes.
 */
module CustomSelect {
  import opened Wrappers

  /** An option value: a string or a number. */
  datatype Scalar = SString(s: string) | SNumber(n: int)

  datatype Choice = Choice(caption: string, value: Scalar)

  /** The `value` prop: one scalar, an array of scalars, null, or a date (which matches no option). */
  datatype FieldValue = One(v: Scalar) | Many(vs: seq<Scalar>) | NoValue | DateValue

  predicate Truthy(v: Scalar) {
    match v
    case SString(s) => s != ""
    case SNumber(n) => n != 0
  }

  /** Multi mode is on exactly when `multi` is "yes"; an absent `multi` means "no". */
  predicate IsMulti(multi: Option<string>) {
    (if multi.Some? then multi.value else "no") == "yes"
  }

  /** `options.filter(opt => values.includes(opt.value))`. */
  function ChoicesWithin(options: seq<Choice>, values: seq<Scalar>): (chosen: seq<Choice>)
    ensures |chosen| <= |options|
    ensures forall c :: c in chosen <==> c in options && c.value in values
  {
    if options == [] then []
    else
      assert forall c :: c in options <==> c == options[0] || c in options[1..];
      (if options[0].value in values then [options[0]] else []) + ChoicesWithin(options[1..], values)
  }

  /** Filtering distributes over concatenation, so the chosen options keep their order in `options`. */
  lemma {:induction false} ChoicesWithinAppend(a: seq<Choice>, b: seq<Choice>, values: seq<Scalar>)
    ensures ChoicesWithin(a + b, values) == ChoicesWithin(a, values) + ChoicesWithin(b, values)
  {
    if a == [] {
      assert a + b == b;
    } else {
      assert (a + b)[0] == a[0];
      assert (a + b)[1..] == a[1..] + b;
      ChoicesWithinAppend(a[1..], b, values);
    }
  }

  /** A single option is kept exactly when its value is in the array. */
  lemma ChoicesWithinSingle(o: Choice, values: seq<Scalar>)
    ensures ChoicesWithin([o], values) == if o.value in values then [o] else []
  {
    assert [o][1..] == [];
  }

  /** `options.findIndex(opt => opt.value === v)`, as an index. */
  function FirstWithValue(options: seq<Choice>, v: Scalar): (r: Option<nat>)
    ensures r.Some? ==> r.value < |options| && options[r.value].value == v
    ensures r.Some? ==> forall j :: 0 <= j < r.value ==> options[j].value != v
    ensures r.None? ==> forall j :: 0 <= j < |options| ==> options[j].value != v
  {
    if options == [] then None
    else if options[0].value == v then Some(0)
    else
      var rest := FirstWithValue(options[1..], v);
      if rest.Some? then Some(rest.value + 1) else None
  }

  /** What the select shows as chosen. */
  datatype Selection = MultiSelection(chosen: seq<Choice>) | SingleSelection(pick: Option<Choice>)

  /** `selectedValue`: in multi mode the options whose value is in the value array, else the first option equal to the value. */
  function SelectedValue(multi: Option<string>, options: seq<Choice>, value: FieldValue): (s: Selection)
    ensures s.MultiSelection? <==> IsMulti(multi)
    ensures s.MultiSelection? && !value.Many? ==> s.chosen == []
    ensures s.MultiSelection? && value.Many? ==> s.chosen == ChoicesWithin(options, value.vs)
    ensures s.SingleSelection? && !value.One? ==> s.pick.None?
    ensures s.SingleSelection? && value.One? && s.pick.Some? ==> s.pick.value in options && s.pick.value.value == value.v
    ensures s.SingleSelection? && value.One? && s.pick.Some? ==>
      exists i :: 0 <= i < |options| && options[i] == s.pick.value && forall j :: 0 <= j < i ==> options[j].value != value.v
    ensures s.SingleSelection? && value.One? && s.pick.None? ==> forall c :: c in options ==> c.value != value.v
  {
    if IsMulti(multi) then
      MultiSelection(if value.Many? then ChoicesWithin(options, value.vs) else [])
    else if value.One? then
      var i := FirstWithValue(options, value.v);
      SingleSelection(if i.Some? then Some(options[i.value]) else None)
    else SingleSelection(None)
  }

  /** What react-select hands to the change handler: several options, one, or none. */
  datatype Picked = PickedMany(choices: seq<Choice>) | PickedOne(choice: Choice) | PickedNone

  /** What the handler writes to the form field. */
  datatype FieldWrite = WriteSelection(picked: Picked) | WriteScalar(v: Scalar)

  datatype ChangeEffect = FieldChange(write: FieldWrite) | OnChangeCallback(picked: Picked)

  /** `selected?.value || ""`: the picked option's value, or "" when nothing is picked or the value is falsy. */
  function SingleValueWritten(selected: Picked): (v: Scalar)
    ensures selected.PickedOne? && Truthy(selected.choice.value) ==> v == selected.choice.value
    ensures !(selected.PickedOne? && Truthy(selected.choice.value)) ==> v == SString("")
  {
    if selected.PickedOne? && Truthy(selected.choice.value) then selected.choice.value else SString("")
  }

  /** `onHandleChange`: first the field update, then the optional callback with the same selection. */
  function OnHandleChange(multi: Option<string>, hasOnChange: bool, selected: Picked): (effects: seq<ChangeEffect>)
    ensures |effects| == if hasOnChange then 2 else 1
    ensures IsMulti(multi) ==> effects[0] == FieldChange(WriteSelection(selected))
    ensures !IsMulti(multi) ==> effects[0] == FieldChange(WriteScalar(SingleValueWritten(selected)))
    ensures hasOnChange ==> effects[1] == OnChangeCallback(selected)
  {
    var write := if multi == Some("yes") then WriteSelection(selected) else WriteScalar(SingleValueWritten(selected));
    [FieldChange(write)] + (if hasOnChange then [OnChangeCallback(selected)] else [])
  }

  /**
   * In single mode, picking an option with a truthy value and feeding the
   * written value back selects that option again, provided it is the first
   * with its value.
   */
  lemma SingleSelectRoundTrip(options: seq<Choice>, i: nat)
    requires i < |options| && Truthy(options[i].value)
    requires forall j :: 0 <= j < i ==> options[j].value != options[i].value
    ensures SelectedValue(None, options, One(SingleValueWritten(PickedOne(options[i])))) == SingleSelection(Some(options[i]))
  {
    var r := FirstWithValue(options, options[i].value);
    assert r.Some?;
    assert r.value == i;
  }

  /** An option whose value is 0 is written back as "", which selects no numeric option. */
  lemma ZeroValuedOptionIsLost(caption: string)
    ensures SingleValueWritten(PickedOne(Choice(caption, SNumber(0)))) == SString("")
    ensures SelectedValue(None, [Choice(caption, SNumber(0))], One(SString(""))) == SingleSelection(None)
  {
  }
}
