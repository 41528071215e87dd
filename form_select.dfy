/**
 * The select field: options given as strings or as caption/value pairs,
 * normalised to pairs; the field shows the caption of the first option whose
 * value equals the current value, or the placeholder.
 */
module FormSelect {
  import opened Js

  /** The values a field compares with `===`: strings, numbers, booleans and `null`. */
  datatype Value = StrV(s: string) | NumV(n: int) | BoolV(b: bool) | NullV

  /** An option as given: a bare string, or a caption with a value. */
  datatype RawOption = Plain(text: string) | Labeled(caption: string, value: Value)

  /** An option after normalisation. */
  datatype Choice = Choice(caption: string, value: Value)

  /** A bare string becomes a pair with itself as caption and value. */
  function NormalizeOne(o: RawOption): (c: Choice)
    ensures o.Plain? ==> c == Choice(o.text, StrV(o.text))
    ensures o.Labeled? ==> c == Choice(o.caption, o.value)
  {
    match o
    case Plain(t) => Choice(t, StrV(t))
    case Labeled(c0, v) => Choice(c0, v)
  }

  /** `normalizedOptions`: one choice per option, in order. */
  function Normalize(options: seq<RawOption>): (r: seq<Choice>)
    ensures |r| == |options|
    ensures forall i :: 0 <= i < |options| ==> r[i] == NormalizeOne(options[i])
  {
    if options == [] then [] else [NormalizeOne(options[0])] + Normalize(options[1..])
  }

  /** Normalising already-normal options changes nothing. */
  lemma NormalizeLabeledIsIdentity(choices: seq<Choice>, options: seq<RawOption>)
    requires |options| == |choices|
    requires forall i :: 0 <= i < |options| ==> options[i] == Labeled(choices[i].caption, choices[i].value)
    ensures Normalize(options) == choices
  {
  }

  /** `value === option.value`: the highlight of an option. */
  predicate IsSelected(c: Choice, value: Value) {
    c.value == value
  }

  /**
   * `normalizedOptions.find(opt => opt.value === value)`: the first selected
   * choice, if any.
   */
  function SelectedOption(choices: seq<Choice>, value: Value): (r: Option<Choice>)
    ensures r == None <==> forall i :: 0 <= i < |choices| ==> !IsSelected(choices[i], value)
    ensures r.Some? ==> IsSelected(r.value, value) && r.value in choices
    ensures r.Some? ==> exists k :: 0 <= k < |choices| && choices[k] == r.value
                                    && forall i :: 0 <= i < k ==> !IsSelected(choices[i], value)
  {
    if choices == [] then None
    else if IsSelected(choices[0], value) then Some(choices[0])
    else
      var r := SelectedOption(choices[1..], value);
      if r.Some? then
        var k :| 0 <= k < |choices[1..]| && choices[1..][k] == r.value
                 && forall i :: 0 <= i < k ==> !IsSelected(choices[1..][i], value);
        assert choices[k + 1] == r.value;
        r
      else r
  }

  const DefaultPlaceholder: string := "Select an option"

  /** The field's text: the selected caption, or the placeholder. */
  function DisplayText(choices: seq<Choice>, value: Value, placeholder: string): (t: string)
    ensures (forall i :: 0 <= i < |choices| ==> !IsSelected(choices[i], value)) ==> t == placeholder
    ensures (exists i :: 0 <= i < |choices| && IsSelected(choices[i], value)) ==>
              exists k :: 0 <= k < |choices| && IsSelected(choices[k], value) && t == choices[k].caption
                          && forall i :: 0 <= i < k ==> !IsSelected(choices[i], value)
  {
    match SelectedOption(choices, value)
    case Some(c) => c.caption
    case None => placeholder
  }

  /**
   * With distinct option values at most one option is highlighted, and it is
   * the one whose caption the field shows.
   */
  lemma {:induction false} SelectedIsTheOne(choices: seq<Choice>, value: Value, i: int)
    requires forall a, b :: 0 <= a < b < |choices| ==> choices[a].value != choices[b].value
    requires 0 <= i < |choices| && IsSelected(choices[i], value)
    ensures SelectedOption(choices, value) == Some(choices[i])
    ensures forall j :: 0 <= j < |choices| && IsSelected(choices[j], value) ==> j == i
  {
    if i > 0 {
      assert !IsSelected(choices[0], value);
      SelectedIsTheOne(choices[1..], value, i - 1);
    }
  }

  /** A string list shows the chosen string itself; a value no option has shows the placeholder. */
  lemma StringOptionsDisplay()
    ensures DisplayText(Normalize([Plain("Yes"), Plain("No")]), StrV("No"), DefaultPlaceholder) == "No"
    ensures DisplayText(Normalize([Plain("Yes"), Plain("No")]), NullV, DefaultPlaceholder) == "Select an option"
  {
    var cs := Normalize([Plain("Yes"), Plain("No")]);
    assert cs == [Choice("Yes", StrV("Yes")), Choice("No", StrV("No"))];
    assert cs[1..] == [Choice("No", StrV("No"))];
  }

  /** The field's option sheet. */
  class SelectField {
    var modalVisible: bool

    constructor ()
      ensures !modalVisible
    {
      modalVisible := false;
    }

    /** Pressing the field opens the sheet. */
    method Open()
      modifies this
      ensures modalVisible
    {
      modalVisible := true;
    }

    /** The backdrop, the close button and the back gesture close the sheet. */
    method Close()
      modifies this
      ensures !modalVisible
    {
      modalVisible := false;
    }

    /** `handleSelect(val)`: the value is handed to `onChange` and the sheet closes. */
    method HandleSelect(val: Value) returns (changed: Value)
      modifies this
      ensures changed == val && !modalVisible
    {
      changed := val;
      modalVisible := false;
    }
  }
}
