/**
 * The setting updates of the sidebar control panel
 * (frontend/src/components/sidebar/control-panel.tsx): toggling a provider in
 * the selection, mapping the language choice to hints and back, the mode
 * toggle, and which controls are disabled in which recording state. Each
 * handler computes a fresh list for its setter; nothing is updated in place.
 *
 * The recording state's type is declared outside the shown files; the panel
 * only compares it with `"recording"` and `"starting"`, so it is a string.
 */
module ControlPanel {
  import opened Collections

  /** The `checked` argument of a checkbox's change handler: a boolean or `"indeterminate"`. */
  datatype CheckedState = Checked(on: bool) | Indeterminate

  const Auto := "AUTO"

  /** `handleProviderSelectionChange`: a real check appends, anything else removes every occurrence. */
  function ToggleProvider(selected: seq<string>, provider: string, checked: CheckedState): seq<string> {
    if checked == Checked(true) then selected + [provider] else Without(selected, provider)
  }

  /** The provider's checkbox (`selectedProviders.includes(provider)`) shows what was just chosen. */
  lemma ToggleShowsChoice(selected: seq<string>, provider: string, checked: CheckedState)
    ensures provider in ToggleProvider(selected, provider, checked) <==> checked == Checked(true)
    ensures forall p :: p != provider ==> (p in ToggleProvider(selected, provider, checked) <==> p in selected)
  {
  }

  /** Checking adds exactly one occurrence, even when the provider is already selected. */
  lemma CheckAddsOccurrence(selected: seq<string>, provider: string)
    ensures multiset(ToggleProvider(selected, provider, Checked(true))) == multiset(selected) + multiset{provider}
  {
  }

  /** Checking and then unchecking a provider removes it entirely and keeps the rest in order. */
  lemma CheckThenUncheck(selected: seq<string>, provider: string, off: CheckedState)
    requires off != Checked(true)
    ensures ToggleProvider(ToggleProvider(selected, provider, Checked(true)), provider, off) == Without(selected, provider)
  {
    WithoutAppend(selected, [provider], provider);
    assert Without([provider], provider) == [] by {
      assert [provider][1..] == [];
    }
    assert Without(selected, provider) + [] == Without(selected, provider);
  }

  /** Unchecking a provider that is not selected changes nothing. */
  lemma UncheckAbsent(selected: seq<string>, provider: string, off: CheckedState)
    requires off != Checked(true) && provider !in selected
    ensures ToggleProvider(selected, provider, off) == selected
  {
    WithoutAbsent(selected, provider);
  }

  /** `handleLanguageHintChange`: `"AUTO"` means no hint, anything else is the only hint. */
  function LanguageHintsFor(value: string): (r: seq<string>)
    ensures |r| <= 1
    ensures r == [] <==> value == Auto
    ensures r != [] ==> r[0] == value
  {
    if value == Auto then [] else [value]
  }

  /** The language select's value: the first hint, or `"AUTO"` without hints. */
  function HintDisplay(hints: seq<string>): string {
    if |hints| > 0 then hints[0] else Auto
  }

  /** Choosing a value and reading the select back gives that value. */
  lemma HintRoundTrip(value: string)
    ensures HintDisplay(LanguageHintsFor(value)) == value
  {
  }

  /** Reading the select and choosing what it shows keeps a hint list of at most one entry, except an `"AUTO"` hint. */
  lemma HintsRoundTrip(hints: seq<string>)
    requires |hints| <= 1 && hints != [Auto]
    ensures LanguageHintsFor(HintDisplay(hints)) == hints
  {
  }

  /** The mode toggle: an empty choice (clicking the active item) keeps the current mode. */
  function ModeAfter(current: string, chosen: string): string {
    if chosen != "" then chosen else current
  }

  const Modes: seq<string> := ["stt", "mt"]

  /**
   * The toggle hands over one of its two item values, or `""` when the active
   * item is clicked again: the mode always stays `"stt"` or `"mt"`, and a
   * click on an item selects that item.
   */
  lemma ModeStaysValid(current: string, chosen: string)
    requires current in Modes && (chosen == "" || chosen in Modes)
    ensures ModeAfter(current, chosen) in Modes
    ensures chosen in Modes ==> ModeAfter(current, chosen) == chosen
    ensures chosen == "" ==> ModeAfter(current, chosen) == current
  {
  }

  predicate IsRecording(recordingState: string) {
    recordingState == "recording"
  }

  predicate IsStarting(recordingState: string) {
    recordingState == "starting"
  }

  /** The provider checkboxes: locked while recording or before the provider features are loaded. */
  function ProviderCheckboxDisabled(recordingState: string, featuresLoaded: bool): bool {
    IsRecording(recordingState) || !featuresLoaded
  }

  /** The mode toggle and the language select: locked while recording. */
  function SettingsLocked(recordingState: string): bool {
    IsRecording(recordingState)
  }

  /** The three option checkboxes: locked while recording or starting. */
  function OptionCheckboxDisabled(recordingState: string): bool {
    IsRecording(recordingState) || IsStarting(recordingState)
  }

  /**
   * While recording every control is locked. While starting the option
   * checkboxes are locked and the mode toggle and language select are not.
   * In every state other than recording, the provider checkboxes are locked
   * exactly while the features are unloaded.
   */
  lemma DisableRules(recordingState: string, featuresLoaded: bool)
    ensures IsRecording(recordingState) ==>
      ProviderCheckboxDisabled(recordingState, featuresLoaded) && SettingsLocked(recordingState) && OptionCheckboxDisabled(recordingState)
    ensures IsStarting(recordingState) ==>
      OptionCheckboxDisabled(recordingState) && !SettingsLocked(recordingState)
      && (ProviderCheckboxDisabled(recordingState, featuresLoaded) <==> !featuresLoaded)
    ensures !IsRecording(recordingState) && !IsStarting(recordingState) ==>
      !SettingsLocked(recordingState) && !OptionCheckboxDisabled(recordingState)
      && (ProviderCheckboxDisabled(recordingState, featuresLoaded) <==> !featuresLoaded)
  {
  }
}
