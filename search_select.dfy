/**
 * The option logic of the searchable select (frontend/src/components/ui/search-select.tsx):
 * the search filter, the split of the options into the selected one, the
 * suggested ones and the others, the select/deselect toggle and the label
 * shown on the trigger. `value` is optional, as the component's prop is.
 * The sort of each group by label is not modelled: groups keep option order.
 */
module SearchSelect {
  import opened Collections
  import opened JsString
  import TranslationUtils

  datatype SelectOption = SelectOption(value: string, text: string)

  const DefaultPlaceholder := "Select an option..."
  const SuggestedHeading := "Suggested"
  const OthersHeading := "Others"

  /** `options.find((o) => o.value === v)`, as the index of the first match. */
  function FindByValue(options: seq<SelectOption>, v: string): (r: Option<nat>)
    ensures r.None? ==> forall i :: 0 <= i < |options| ==> options[i].value != v
    ensures r.Some? ==> r.value < |options| && options[r.value].value == v
    ensures r.Some? ==> forall j :: 0 <= j < r.value ==> options[j].value != v
  {
    if options == [] then None
    else if options[0].value == v then Some(0)
    else
      match FindByValue(options[1..], v)
      case None => None
      case Some(k) => Some(k + 1)
  }

  /** `selectedOption`: the first option whose value is `value`; an absent `value` selects nothing. */
  function Selected(options: seq<SelectOption>, value: Option<string>): (r: Option<SelectOption>)
    ensures value.None? ==> r.None?
    ensures r.Some? ==> r.value in options && Some(r.value.value) == value
    ensures value.Some? && (exists i :: 0 <= i < |options| && options[i].value == value.value) ==> r.Some?
  {
    if value.None? then None
    else
      match FindByValue(options, value.value)
      case None => None
      case Some(i) => Some(options[i])
  }

  /** `filterFunction(itemValue, search)`: 1 on a case-insensitive label match of the option with that value, else 0. */
  function FilterScore(options: seq<SelectOption>, itemValue: string, search: string): (r: int)
    ensures r == 0 || r == 1
    ensures r == 1 ==> exists i :: 0 <= i < |options| && options[i].value == itemValue && Includes(ToLower(options[i].text), ToLower(search))
    ensures (forall i :: 0 <= i < |options| ==> options[i].value != itemValue) ==> r == 0
    ensures forall i :: (0 <= i < |options| && options[i].value == itemValue
      && (forall j :: 0 <= j < i ==> options[j].value != itemValue)
      ==> (r == 1 <==> Includes(ToLower(options[i].text), ToLower(search))))
  {
    match FindByValue(options, itemValue)
    case Some(i) => if Includes(ToLower(options[i].text), ToLower(search)) then 1 else 0
    case None => 0
  }

  /** An empty search matches every value some option has. */
  lemma EmptySearchMatchesKnown(options: seq<SelectOption>, itemValue: string)
    requires exists i :: 0 <= i < |options| && options[i].value == itemValue
    ensures FilterScore(options, itemValue, "") == 1
  {
    var i := FindByValue(options, itemValue).value;
    IncludesEmptyAndSelf(ToLower(options[i].text));
  }

  /** Searching for an option's own label, in any ASCII case, matches it when it is the first with its value. */
  lemma OwnLabelMatches(options: seq<SelectOption>, i: nat)
    requires i < |options|
    requires forall j :: 0 <= j < i ==> options[j].value != options[i].value
    ensures FilterScore(options, options[i].value, options[i].text) == 1
    ensures FilterScore(options, options[i].value, ToLower(options[i].text)) == 1
  {
    assert FindByValue(options, options[i].value) == Some(i);
    IncludesEmptyAndSelf(ToLower(options[i].text));
    ToLowerIdempotent(options[i].text);
  }

  /** `highlightedOptions` before sorting: suggested options other than the selected value. */
  function Highlighted(options: seq<SelectOption>, highlightedValues: seq<string>, value: Option<string>): (r: seq<SelectOption>)
    ensures forall o :: o in r <==> o in options && o.value in highlightedValues && Some(o.value) != value
  {
    if options == [] then []
    else
      var rest := Highlighted(options[1..], highlightedValues, value);
      if options[0].value in highlightedValues && Some(options[0].value) != value then [options[0]] + rest else rest
  }

  /** `otherOptions` before sorting: the remaining options other than the selected value. */
  function Others(options: seq<SelectOption>, highlightedValues: seq<string>, value: Option<string>): (r: seq<SelectOption>)
    ensures forall o :: o in r <==> o in options && o.value !in highlightedValues && Some(o.value) != value
  {
    if options == [] then []
    else
      var rest := Others(options[1..], highlightedValues, value);
      if options[0].value !in highlightedValues && Some(options[0].value) != value then [options[0]] + rest else rest
  }

  /** The options whose value is not the selected value. */
  function Unselected(options: seq<SelectOption>, value: Option<string>): seq<SelectOption> {
    if options == [] then []
    else
      var rest := Unselected(options[1..], value);
      if Some(options[0].value) != value then [options[0]] + rest else rest
  }

  /** The two groups split the unselected options, each occurrence going to exactly one of them. */
  lemma {:induction false} GroupsPartition(options: seq<SelectOption>, highlightedValues: seq<string>, value: Option<string>)
    ensures multiset(Highlighted(options, highlightedValues, value)) + multiset(Others(options, highlightedValues, value))
      == multiset(Unselected(options, value))
  {
    if options != [] {
      GroupsPartition(options[1..], highlightedValues, value);
    }
  }

  /** No option lies in both groups, and neither holds an option with the selected value. */
  lemma GroupsDisjoint(options: seq<SelectOption>, highlightedValues: seq<string>, value: Option<string>)
    ensures forall o :: !(o in Highlighted(options, highlightedValues, value) && o in Others(options, highlightedValues, value))
    ensures forall o :: (o in Highlighted(options, highlightedValues, value) || o in Others(options, highlightedValues, value)
      ==> Some(o.value) != value)
  {
  }

  /** `onSelect`: choosing the current value clears it, any other choice becomes the value. */
  function OnSelect(current: string, value: Option<string>): string {
    if Some(current) == value then "" else current
  }

  /**
   * Choosing an option other than the current value selects it, and choosing
   * it once more clears the selection again.
   */
  lemma SelectTwiceDeselects(v: string, value: Option<string>)
    requires Some(v) != value
    ensures OnSelect(v, value) == v
    ensures OnSelect(v, Some(OnSelect(v, value))) == ""
  {
  }

  /** `stripOutLeadingUnderscore`: `str.replace(/^_/, "")`. */
  function StripLeadingUnderscore(s: string): string {
    if |s| > 0 && s[0] == '_' then s[1..] else s
  }

  /** Exactly one underscore goes: the label of the `"*"` language shows without its sorting prefix. */
  lemma StripOneUnderscore(t: string)
    ensures StripLeadingUnderscore("_" + t) == t
    ensures StripLeadingUnderscore(TranslationUtils.AnyLanguageLabel) == "Any Language (AUTO)"
    ensures StripLeadingUnderscore("__" + t) == "_" + t
  {
    assert ("_" + t)[1..] == t;
    assert ("__" + t)[1..] == "_" + t;
  }

  /** A label that does not start with an underscore is shown as it is. */
  lemma StripLeavesOthers(s: string)
    requires s == [] || s[0] != '_'
    ensures StripLeadingUnderscore(s) == s
  {
  }

  /** The trigger's text: the stripped label of the selected option, else the placeholder (with its default). */
  function TriggerLabel(options: seq<SelectOption>, value: Option<string>, placeholder: Option<string>): string {
    match Selected(options, value)
    case Some(o) => StripLeadingUnderscore(o.text)
    case None => if placeholder.Some? then placeholder.value else DefaultPlaceholder
  }

  /**
   * The trigger shows the label, without its sorting underscore, of the first
   * option with the value; with no such option it shows the placeholder.
   */
  lemma TriggerShowsSelection(options: seq<SelectOption>, value: Option<string>, placeholder: Option<string>)
    ensures forall i :: (0 <= i < |options| && value == Some(options[i].value)
      && (forall j :: 0 <= j < i ==> options[j].value != options[i].value)
      ==> TriggerLabel(options, value, placeholder) == StripLeadingUnderscore(options[i].text))
    ensures (value.None? || forall i :: 0 <= i < |options| ==> Some(options[i].value) != value)
      ==> TriggerLabel(options, value, placeholder) == if placeholder.Some? then placeholder.value else DefaultPlaceholder
  {
    forall i | 0 <= i < |options| && value == Some(options[i].value)
      && (forall j :: 0 <= j < i ==> options[j].value != options[i].value)
      ensures TriggerLabel(options, value, placeholder) == StripLeadingUnderscore(options[i].text)
    {
      assert FindByValue(options, value.value) == Some(i);
    }
  }

  datatype CommandGroup = CommandGroup(heading: Option<string>, items: seq<SelectOption>)

  /** `commandContent`: the selected option alone, then the suggested group, then the others. */
  function Groups(options: seq<SelectOption>, highlightedValues: seq<string>, value: Option<string>): (r: seq<CommandGroup>)
    ensures forall g :: g in r ==> g.items != []
    ensures forall g :: g in r && g.heading == Some(OthersHeading) ==> Highlighted(options, highlightedValues, value) != []
  {
    var selected := Selected(options, value);
    var highlighted := Highlighted(options, highlightedValues, value);
    var others := Others(options, highlightedValues, value);
    (if selected.Some? then [CommandGroup(None, [selected.value])] else [])
    + (if |highlighted| > 0 then [CommandGroup(Some(SuggestedHeading), highlighted)] else [])
    + (if |others| > 0 then [CommandGroup(if |highlighted| > 0 then Some(OthersHeading) else None, others)] else [])
  }

  /** The selected option leads in a group of its own, and no later group holds an option with its value. */
  lemma SelectedOnlyInLeadingGroup(options: seq<SelectOption>, highlightedValues: seq<string>, value: Option<string>)
    requires Selected(options, value).Some?
    ensures var gs := Groups(options, highlightedValues, value);
      && gs[0] == CommandGroup(None, [Selected(options, value).value])
      && forall k, o :: 1 <= k < |gs| && o in gs[k].items ==> Some(o.value) != value
  {
    var gs := Groups(options, highlightedValues, value);
    forall k, o | 1 <= k < |gs| && o in gs[k].items ensures Some(o.value) != value {
      assert o in Highlighted(options, highlightedValues, value) || o in Others(options, highlightedValues, value);
    }
  }
}
