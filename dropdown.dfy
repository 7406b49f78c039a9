// The way the settings panels show a stored text in a TMP_Dropdown with a
// fixed option list: List.FindIndex for the first option equal to the text,
// and the first option (the placeholder) when none is.
module Dropdown {
  import opened Wrappers

  /** `options.FindIndex(o => o.text == text)`: the first position holding
      the text, or -1. A null text equals no option. */
  function FindIndex(options: seq<string>, text: Option<string>): (r: int)
    ensures -1 <= r < |options|
    ensures r >= 0 ==> Some(options[r]) == text && forall j :: 0 <= j < r ==> Some(options[j]) != text
    ensures r == -1 <==> forall j :: 0 <= j < |options| ==> Some(options[j]) != text
  {
    if |options| == 0 then -1
    else if Some(options[0]) == text then 0
    else
      var k := FindIndex(options[1..], text);
      assert forall j :: 1 <= j < |options| ==> options[j] == options[1..][j - 1];
      if k == -1 then -1 else k + 1
  }

  /** `dropdown.value = index != -1 ? index : 0`. */
  function DisplayIndex(options: seq<string>, text: Option<string>): (r: nat)
    requires |options| > 0
    ensures r < |options|
    ensures text.Some? && text.value in options ==> options[r] == text.value
    ensures text.None? || text.value !in options ==> r == 0
  {
    var i := FindIndex(options, text);
    if i != -1 then i else 0
  }

  predicate Distinct(options: seq<string>)
  {
    forall i, j :: 0 <= i < j < |options| ==> options[i] != options[j]
  }

  /** With distinct options, the text read from the selected option shows
      that same option again. */
  lemma DisplayIndexOfOption(options: seq<string>, i: nat)
    requires Distinct(options) && i < |options|
    ensures DisplayIndex(options, Some(options[i])) == i
  {
    var r := DisplayIndex(options, Some(options[i]));
    assert options[r] == options[i];
    assert forall a, b :: 0 <= a < b < |options| ==> options[a] != options[b];
  }
}
