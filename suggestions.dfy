/** The message box with suggestion chips: a text input, at most one selected
    action, a chip for every action that is not selected, and a send button
    that hands the text and the selected action to the page. */
module Suggestions {

  import opened Wrappers
  import opened Js

  /** An action chip; only its label matters to the logic. */
  datatype ActionItem = ActionItem(text: string, icon: string)

  /** The actions shown when the page supplies none. */
  const DefaultActions: seq<ActionItem> := [
    ActionItem("Summary", "Text"),
    ActionItem("Fix Spelling and Grammar", "CheckCheck"),
    ActionItem("Make shorter", "ArrowDownWideNarrow")
  ]

  /** What the page's `onSubmit` receives. */
  datatype Submission = Submission(text: string, action: Option<string>)

  /** `prev === itemText ? null : itemText`. */
  function Toggled(selected: Option<string>, item: string): (r: Option<string>)
    ensures r.None? <==> selected == Some(item)
    ensures r.Some? ==> r.value == item
  {
    if selected == Some(item) then None else Some(item)
  }

  /** Toggling an item twice restores the selection when nothing or that item
      was selected; from another selection it ends with nothing selected. */
  lemma ToggleTwice(selected: Option<string>, item: string)
    ensures selected.None? || selected == Some(item) ==> Toggled(Toggled(selected, item), item) == selected
    ensures selected.Some? && selected != Some(item) ==> Toggled(Toggled(selected, item), item).None?
  {
  }

  /** `actions.find(item => item.text === text)`: the first action with that
      label. */
  function Find(actions: seq<ActionItem>, text: string): (r: Option<ActionItem>)
    ensures r.None? <==> forall i :: 0 <= i < |actions| ==> actions[i].text != text
    ensures r.Some? ==>
              exists i :: 0 <= i < |actions| && actions[i] == r.value && r.value.text == text
                          && forall j :: 0 <= j < i ==> actions[j].text != text
  {
    if |actions| == 0 then None
    else if actions[0].text == text then Some(actions[0])
    else
      var r := Find(actions[1..], text);
      assert forall i :: 1 <= i < |actions| ==> actions[i] == actions[1..][i - 1];
      if r.Some? then
        var i :| 0 <= i < |actions[1..]| && actions[1..][i] == r.value && r.value.text == text
                 && forall j :: 0 <= j < i ==> actions[1..][j].text != text;
        assert actions[i + 1] == r.value;
        r
      else r
  }

  /** `currentItem`: nothing while the selection is null or empty, otherwise
      the first action carrying the selected label. */
  function CurrentItem(actions: seq<ActionItem>, selected: Option<string>): (r: Option<ActionItem>)
    ensures selected.None? || selected == Some("") ==> r.None?
    ensures selected.Some? && selected.value != "" ==> r == Find(actions, selected.value)
  {
    if selected.None? || selected.value == "" then None else Find(actions, selected.value)
  }

  /** The chips: every action except the selected one, in order. */
  function Chips(actions: seq<ActionItem>, selected: Option<string>): (r: seq<ActionItem>)
    ensures |r| <= |actions|
    ensures selected.None? ==> r == actions
  {
    if |actions| == 0 then []
    else (if Some(actions[0].text) != selected then [actions[0]] else []) + Chips(actions[1..], selected)
  }

  /** An action is a chip exactly when it is not the selected one. */
  lemma {:induction false} ChipsMembers(actions: seq<ActionItem>, selected: Option<string>)
    ensures forall a :: a in Chips(actions, selected) <==> a in actions && Some(a.text) != selected
  {
    if |actions| > 0 {
      ChipsMembers(actions[1..], selected);
      assert actions == [actions[0]] + actions[1..];
    }
  }

  /** With no chip carrying the selected label, every action is a chip. */
  lemma {:induction false} ChipsKeepUnselected(actions: seq<ActionItem>, selected: string)
    requires forall j :: 0 <= j < |actions| ==> actions[j].text != selected
    ensures Chips(actions, Some(selected)) == actions
  {
    if |actions| > 0 {
      ChipsKeepUnselected(actions[1..], selected);
      assert [actions[0]] + actions[1..] == actions;
    }
  }

  /** Filtering two runs of actions is filtering each run. */
  lemma {:induction false} ChipsAppend(a: seq<ActionItem>, b: seq<ActionItem>, selected: Option<string>)
    ensures Chips(a + b, selected) == Chips(a, selected) + Chips(b, selected)
  {
    if |a| == 0 {
      assert a + b == b;
    } else {
      assert (a + b)[0] == a[0];
      assert (a + b)[1..] == a[1..] + b;
      ChipsAppend(a[1..], b, selected);
    }
  }

  /** Filtering around a selected action: the actions before it, then those
      after it. */
  lemma ChipsAround(actions: seq<ActionItem>, i: nat, selected: Option<string>)
    requires i < |actions| && Some(actions[i].text) == selected
    ensures Chips(actions, selected) == Chips(actions[..i], selected) + Chips(actions[i + 1..], selected)
  {
    assert actions == actions[..i] + ([actions[i]] + actions[i + 1..]);
    ChipsAppend(actions[..i], [actions[i]] + actions[i + 1..], selected);
    ChipsAppend([actions[i]], actions[i + 1..], selected);
  }

  /** No action of a run carries the label of a chosen index outside it. */
  lemma KeepAround(actions: seq<ActionItem>, i: nat, selected: string)
    requires i < |actions|
    requires forall j :: 0 <= j < |actions| && j != i ==> actions[j].text != selected
    ensures Chips(actions[..i], Some(selected)) == actions[..i]
    ensures Chips(actions[i + 1..], Some(selected)) == actions[i + 1..]
  {
    var before, after := actions[..i], actions[i + 1..];
    forall j | 0 <= j < |before| ensures before[j].text != selected { assert before[j] == actions[j]; }
    ChipsKeepUnselected(before, selected);
    forall j | 0 <= j < |after| ensures after[j].text != selected { assert after[j] == actions[i + 1 + j]; }
    ChipsKeepUnselected(after, selected);
  }

  /** When one action carries the selected label, the chips are the actions
      with exactly that one removed, the rest in their original order. */
  lemma ChipsDropSelected(actions: seq<ActionItem>, i: nat, selected: string)
    requires i < |actions| && actions[i].text == selected
    requires forall j :: 0 <= j < |actions| && j != i ==> actions[j].text != selected
    ensures Chips(actions, Some(selected)) == actions[..i] + actions[i + 1..]
  {
    ChipsAround(actions, i, Some(selected));
    KeepAround(actions, i, selected);
  }

  /** The send button is disabled exactly when the input is all white space. */
  predicate SendDisabled(input: string) {
    Trim(input) == ""
  }

  lemma SendDisabledIffBlank(input: string)
    ensures SendDisabled(input) <==> AllWhite(input)
  {
  }

  class SuggestionInput {
    const actions: seq<ActionItem>
    var inputValue: string
    var selectedItem: Option<string>

    /** Empty input; the selection starts as `defaultSelected ?? null`. */
    constructor(actions: seq<ActionItem>, defaultSelected: Option<string>)
      ensures this.actions == actions
      ensures inputValue == "" && selectedItem == defaultSelected
    {
      this.actions := actions;
      inputValue := "";
      selectedItem := defaultSelected;
    }

    /** The text area's `onChange`. */
    method Type(value: string)
      modifies this
      ensures inputValue == value && selectedItem == old(selectedItem)
    {
      inputValue := value;
    }

    /** `toggleItem`: a chip click. */
    method Toggle(item: string)
      modifies this
      ensures selectedItem == Toggled(old(selectedItem), item)
      ensures inputValue == old(inputValue)
    {
      if selectedItem == Some(item) {
        selectedItem := None;
      } else {
        selectedItem := Some(item);
      }
    }

    /** `handleSubmit`: blank input changes nothing; otherwise the untrimmed
        text and the selection go to the page and both are cleared. */
    method Submit() returns (sent: Option<Submission>)
      modifies this
      ensures Trim(old(inputValue)) == "" ==>
                sent.None? && inputValue == old(inputValue) && selectedItem == old(selectedItem)
      ensures Trim(old(inputValue)) != "" ==>
                sent == Some(Submission(old(inputValue), old(selectedItem))) && inputValue == "" && selectedItem.None?
    {
      if Trim(inputValue) == "" {
        return None;
      }
      sent := Some(Submission(inputValue, selectedItem));
      inputValue := "";
      selectedItem := None;
    }
  }
}
