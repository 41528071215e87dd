/**
 * The radio group: the same normalisation as the select field, each option
 * highlighted when its value equals the current value, and a press handing
 * that option's value to the caller.
 */
module FormRadio {
  import opened Js
  import opened FormSelect

  /** The highlight of every option, in order. */
  function Highlights(options: seq<RawOption>, value: Value): (r: seq<bool>)
    ensures |r| == |options|
    ensures forall i :: 0 <= i < |options| ==> (r[i] <==> IsSelected(Normalize(options)[i], value))
  {
    var cs := Normalize(options);
    seq(|cs|, i requires 0 <= i < |cs| => IsSelected(cs[i], value))
  }

  /** `onChange(option.value)`: the value a press on the option at `i` hands over, which that option then shows as selected. */
  function Pressed(options: seq<RawOption>, i: int): (v: Value)
    requires 0 <= i < |options|
    ensures NormalizeOne(options[i]).value == v
    ensures Highlights(options, v)[i]
  {
    Normalize(options)[i].value
  }

  /** A press on the option at `i` hands over its value, after which exactly that option is highlighted (for distinct values). */
  lemma PressHighlightsOnlyIt(options: seq<RawOption>, i: int, j: int)
    requires forall a, b :: 0 <= a < b < |Normalize(options)| ==> Normalize(options)[a].value != Normalize(options)[b].value
    requires 0 <= i < |options| && 0 <= j < |options|
    ensures Highlights(options, Pressed(options, i))[j] <==> i == j
  {
    SelectedIsTheOne(Normalize(options), Normalize(options)[i].value, i);
  }

  /** The option a select field labels is one the radio group highlights. */
  lemma SelectAgreesWithRadio(options: seq<RawOption>, value: Value)
    requires SelectedOption(Normalize(options), value).Some?
    ensures exists i :: 0 <= i < |options| && Highlights(options, value)[i]
  {
    var cs := Normalize(options);
    var k :| 0 <= k < |cs| && cs[k] == SelectedOption(cs, value).value
             && forall i :: 0 <= i < k ==> !IsSelected(cs[i], value);
    assert Highlights(options, value)[k];
  }
}
