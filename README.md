# soniox-compare: a verified model of the comparison front end's logic

This project models the deterministic logic of soniox-compare. The application streams one audio input to several speech-to-text and translation providers and shows their transcripts side by side. The model covers seven pieces of that logic:

- **Transcript view** (`TranscriptRenderer`). The walk over transcript parts decides, for each part, four things: whether a speaker header is drawn, whether a language tag is shown, whether the tag starts a new line, and whether spacing is added. The final parts are walked first and the non-final parts continue from the state they leave. The module also covers the choice of panel content, the truncation of long errors, the `MM:SS.mmm` time format and the `<end>` endpoint marker.
- **Translation language rules** (`TranslationUtils`). Display names, the one-way and two-way validators, and the list builders over a model's rules and `"a:b"` pairs. The builders fill a `Set` in loops; here they are methods with loop invariants, proved against membership predicates.
- **Capability validation** (`BaseProvider`). `validate_capabilities` is a procedure on a mutable parameter object. It is proved equal to a specification function `Validate`, and the promised properties are proved about `Validate`: which cases raise, that flags are only switched off, and the order and levels of the warnings.
- **Provider features** (`FeatureContext`). The providers offered for comparison, the filtered feature entries, the feature set and the plain-text feature table.
- **Search select** (`SearchSelect`). The label filter, the split into the selected option, the "Suggested" group and the "Others" group, the select/deselect toggle and the trigger label.
- **Swipe recogniser** (`UseSwipe`). A class with two mutable coordinate slots and the three touch handlers. The handler for touch end is proved against the classification function `Classify`.
- **Control panel** (`ControlPanel`). The provider-selection toggle, the mapping between a language choice and the hint list, the mode toggle, and which controls are disabled in which recording state.

Two helper modules model the JavaScript built-ins the code relies on:

- `JsString` covers `trim`, `trimStart`, `padStart`, ASCII `toLowerCase`, `includes`, `split`, `join` and decimal numerals.
- `Collections` covers `Option`, an insertion-ordered `Set` kept as a duplicate-free sequence, and `filter` by inequality.

Only the comparison with `null`/`undefined` matters in these files, and both are `None` throughout.

## Model

| member | source | states |
|---|---|---|
| TranscriptRenderer.SpeakerOf | frontend/src/components/transcript-renderer.tsx:67 | A part has a speaker exactly when its speaker is present and is neither `0` nor `""`; the speaker is then the part's own |
| TranscriptRenderer.Truthy | frontend/src/components/transcript-renderer.tsx:68-69 | A language or status counts only when it is present and non-empty, and is then unchanged |
| TranscriptRenderer.TokenFor | frontend/src/components/transcript-renderer.tsx:71-130 | The part's text is left-trimmed exactly when a header is drawn. A tag is shown iff the language is truthy and changed, so a new speaker alone never shows one. `onNewLine` holds iff the language changed, no header was drawn and the previous language was set. `addSpacing` holds iff the previous status was `"translation"`, the status changed and no header was drawn |
| TranscriptRenderer.RenderParts | frontend/src/components/transcript-renderer.tsx:56-145 | The `forEach` loop yields exactly the elements and the final state of the walk `Fold` |
| TranscriptRenderer.Step | frontend/src/components/transcript-renderer.tsx:66-144 | One iteration of the `forEach` body itself (the elements drawn for a part and the three values it leaves behind); characterised by `TokenFor` and `FoldLastState` |
| TranscriptRenderer.Fold | frontend/src/components/transcript-renderer.tsx:66-144 | The walk over the parts itself; characterised by `FoldAppend`, `FoldSnoc`, `FoldLastState`, and `RenderParts` is proved equal to it |
| TranscriptRenderer.FoldSnoc | frontend/src/components/transcript-renderer.tsx:66-137 | One more part appends its header, if due, and its token, and the state becomes what that part leaves |
| TranscriptRenderer.FoldLastState | frontend/src/components/transcript-renderer.tsx:134-144 | Each part overwrites all three threaded values, so a non-empty walk ends in the state of its last part whatever came before |
| TranscriptRenderer.FoldAppend | frontend/src/components/transcript-renderer.tsx:158-178 | Walking the final parts and then the non-final parts from the returned state equals one walk over their concatenation |
| TranscriptRenderer.ContentOf | frontend/src/components/transcript-renderer.tsx:147-180 | The app error comes first, then the status message, then "No output yet" (exactly when there is none of those, no parts and no error). Otherwise the parts are rendered: the final elements are one walk over the final parts, and together with the non-final elements they are one walk over all parts |
| TranscriptRenderer.RenderTranscript | frontend/src/components/transcript-renderer.tsx:147-180 | The component, calling `RenderParts` twice, shows exactly the content `ContentOf` specifies |
| TranscriptRenderer.ErrorMessage | frontend/src/components/transcript-renderer.tsx:191-204 | An error of at most 150 characters is shown verbatim. A longer one is shown as its first 150 characters and `"..."`, with the full text behind the dialog |
| TranscriptRenderer.FormatTime | frontend/src/components/transcript-renderer.tsx:232-241 | The `formatTime` expression itself; characterised by `FormatTimeFields` |
| TranscriptRenderer.FormatTimeFields | frontend/src/components/transcript-renderer.tsx:232-241 | The text is at least two minute digits, `:`, two second digits, `.` and three millisecond digits. The fields read back as `ms / 60000`, a second count below 60 and `ms % 1000`, which recombine to `ms` |
| TranscriptRenderer.IsEndMarker | frontend/src/components/transcript-renderer.tsx:262 | The `trim() === "<end>"` test itself; characterised by `EndMarkerPadded` and `WordToken` |
| TranscriptRenderer.EndMarkerPadded | frontend/src/components/transcript-renderer.tsx:262 | `<end>` surrounded by any whitespace is recognised as the endpoint marker |
| TranscriptRenderer.WordToken | frontend/src/components/transcript-renderer.tsx:252-317 | The endpoint marker is drawn exactly for the `<end>` text, with the endpoint time as its only tooltip line. A word's line break and spacing are drawn only together with a language tag |
| TranscriptRenderer.OneHeaderForOneSpeaker | frontend/src/components/transcript-renderer.tsx:74-104 | Two parts of speaker 1 followed by `<end>` draw exactly one header, first, for speaker 1 |
| TranscriptRenderer.LanguageChangeSameSpeaker | frontend/src/components/transcript-renderer.tsx:79-125 | A language change under the same speaker draws no header and shows the new language on a new line |
| TranslationUtils.LanguageIndex | frontend/src/lib/translation-utils.ts:40 | `find` by code: the first index with the code, or none when no language has it |
| TranslationUtils.WildcardRuleIndex | frontend/src/lib/translation-utils.ts:212-214 | `find` of the first rule whose sources contain `"*"` |
| TranslationUtils.RuleIndexForTarget | frontend/src/lib/translation-utils.ts:220-222 | `find` of the first rule with the target |
| TranslationUtils.LanguageName | frontend/src/lib/translation-utils.ts:33-39 | `"*"` and `"AUTO"` map to their fixed labels even with no model; without a model the code is its own name |
| TranslationUtils.LanguageNameFirstMatch | frontend/src/lib/translation-utils.ts:40-41 | Another code is named after the first language with that code, or by the code itself when that name is empty |
| TranslationUtils.LanguageNameUnknown | frontend/src/lib/translation-utils.ts:40-41 | A code no language has is its own name |
| TranslationUtils.WithNames | frontend/src/lib/translation-utils.ts:121-126 | Mapping codes to `{code, name}` keeps the codes in order and names each by `getLanguageNameByCode` |
| TranslationUtils.IsOneWayValid | frontend/src/lib/translation-utils.ts:204-231 | The `isOneWayTranslationPairValid` expression itself; characterised by `OneWayValidWildcard` and `OneWayValidConcrete` |
| TranslationUtils.OneWayValidWildcard | frontend/src/lib/translation-utils.ts:211-216 | Source `"*"` is valid iff the target is that of the first rule accepting `"*"` |
| TranslationUtils.OneWayValidConcrete | frontend/src/lib/translation-utils.ts:218-230 | Another source is valid iff it differs from the target and the first rule for the target lists it or `"*"` |
| TranslationUtils.AnyPairMatchesExists | frontend/src/lib/translation-utils.ts:246-249 | The `some` over the pairs holds iff some pair's two fields are the two languages, in either order |
| TranslationUtils.IsTwoWayValid | frontend/src/lib/translation-utils.ts:233-250 | The `isTwoWayTranslationPairValid` expression itself; characterised by `TwoWayValidExists`, `TwoWayValidSymmetric` and `TwoWayValidFromPair` |
| TranslationUtils.TwoWayValidExists | frontend/src/lib/translation-utils.ts:233-250 | With a model, a two-way pair is valid iff both codes are non-empty and different and some pair string names them in either order |
| TranslationUtils.TwoWayValidSymmetric | frontend/src/lib/translation-utils.ts:233-250 | Two-way validity does not depend on the order of its arguments |
| TranslationUtils.TwoWayValidFromPair | frontend/src/lib/translation-utils.ts:246-249 | A pair written `"a:b"` makes `a`/`b` valid in both orders |
| TranslationUtils.GetPartnerLanguagesForTwoWay | frontend/src/lib/translation-utils.ts:129-151 | Duplicate-free codes, named; a code is listed iff some pair offers it as the partner of the language, by the `if`/`else if` of the loop |
| TranslationUtils.PartnerIffTwoWayValid | frontend/src/lib/translation-utils.ts:136-143 | For `b` other than `a`, `b` is a partner of `a` iff `a`/`b` is a valid two-way pair |
| TranslationUtils.GetUniqueLanguagesFromTwoWayPairs | frontend/src/lib/translation-utils.ts:109-127 | Duplicate-free codes, named; exactly the non-empty fields of the pairs |
| TranslationUtils.TwoWayValidInPairs | frontend/src/lib/translation-utils.ts:115-119 | Both sides of a valid two-way pair are among the languages of the pairs |
| TranslationUtils.GetEveryPossibleTargetLanguage | frontend/src/lib/translation-utils.ts:188-202 | Duplicate-free codes, named; exactly the targets of the rules |
| TranslationUtils.GetEveryPossibleSourceLanguage | frontend/src/lib/translation-utils.ts:153-186 | Duplicate-free codes, named. With a wildcard rule, `"*"` comes first and the codes are exactly `"*"` and the model's languages. Without one, the result is exactly the sources other than `"*"` |
| TranslationUtils.HasLanguage | frontend/src/lib/translation-utils.ts:264 | `some` holds iff some language has the code |
| TranslationUtils.GetValidTargetLanguages | frontend/src/lib/translation-utils.ts:252-290 | Duplicate-free codes, named. For `"*"`, at most one code: the first wildcard rule's target (default `"en"`), listed only if it is a model language. Otherwise, exactly the targets of rules that list the source or `"*"`, minus the source |
| TranslationUtils.OneWayValidTargetListed | frontend/src/lib/translation-utils.ts:272-282 | The target of a valid one-way pair with a concrete source is among that source's valid targets |
| TranslationUtils.GetValidSourceLanguages | frontend/src/lib/translation-utils.ts:292-325 | Duplicate-free codes, named, never the target. Only the first rule for the target is consulted: a wildcard rule gives every model language and `"*"`, any other rule its listed sources |
| TranslationUtils.ValidSourceIsOneWayValid | frontend/src/lib/translation-utils.ts:300-315 | A concrete source offered for a target forms a valid one-way pair with it |
| TranslationUtils.GetAvailableTargetLanguagesForModel | frontend/src/lib/translation-utils.ts:44-65 | Duplicate-free codes, named; exactly the rule targets and the fields of the pairs (corrected, see Findings) |
| TranslationUtils.GetAvailableSourceLanguagesForModel | frontend/src/lib/translation-utils.ts:67-107 | Duplicate-free codes, named. One-way: the first rule's sources, plus every model language when `"*"` is among them. Two-way: the other field of every pair with the target on one side (corrected, see Findings) |
| TranslationUtils.TwoWaySourceIffValid | frontend/src/lib/translation-utils.ts:92-100 | In two-way mode a code other than the target is offered iff it forms a valid two-way pair with the target |
| TranslationUtils.SplitPairSecondField | frontend/src/lib/translation-utils.ts:54 | Destructuring `pair.split(":")` leaves the second field `undefined` exactly when the pair has no colon |
| TranslationUtils.AddTargetsAsWrittenDefined | frontend/src/lib/translation-utils.ts:50-52 | The rule targets never add `undefined` |
| TranslationUtils.AddPairFieldsAsWrittenUndefined | frontend/src/lib/translation-utils.ts:53-57 | As written, the pair loop adds `undefined` iff some pair has no colon |
| TranslationUtils.AvailableTargetsAsWrittenUndefined | frontend/src/lib/translation-utils.ts:49-57 | As written, the target list holds `undefined` iff some two-way pair has no colon |
| TranslationUtils.UndefinedTargetExample | frontend/src/lib/translation-utils.ts:53-57 | With the single pair `"en"` the target list as written holds `undefined` |
| TranslationUtils.AvailableSourcesAsWrittenUndefined | frontend/src/lib/translation-utils.ts:92-100 | As written, with a colon-free target, the two-way sources hold `undefined` iff the target itself is one of the pair strings |
| TranslationUtils.UndefinedSourceExample | frontend/src/lib/translation-utils.ts:92-100 | With the single pair `"en"` and target `"en"` the two-way sources as written hold `undefined` |
| JsString.SplitPairOfJoined | frontend/src/lib/translation-utils.ts:54 | `"a:b..."` splits into `a` and `b`; a colon-free string splits into itself and nothing |
| BaseProvider.Validate | providers/base_provider.py:92-200 | The outcome and new parameters of `validate_capabilities` as one expression; `ValidateCapabilities` is proved equal to it, and `RaisesIff`, `FlagsOnlyTurnedOff`, `WarningsCountDisabledFlags` and `WarningOrder` characterise it |
| BaseProvider.TranslationCheck | providers/base_provider.py:100-138 | The translation checks as one expression; characterised by `RaisesIff`, `OneWayUnsupportedRaises`, `TwoWayPartialWarns` and `OneWayPartialOnlyForOneWay` |
| BaseProvider.FlagCheck | providers/base_provider.py:140-198 | One optional-flag check itself; characterised by `FlagCheckShape` and `FlagCheckWarnings` |
| BaseProvider.ValidateCapabilities | providers/base_provider.py:92-200 | The step-by-step procedure returns the outcome `Validate` specifies and leaves the parameter object holding the parameters `Validate` specifies |
| BaseProvider.CheckTranslation | providers/base_provider.py:100-138 | The translation checks raise or collect their warnings as `TranslationCheck` specifies, without changing the parameters |
| BaseProvider.CheckDiarization | providers/base_provider.py:140-158 | Appends the diarization check's message, if any, and sets the flag to its checked value; nothing else changes |
| BaseProvider.CheckLanguageIdentification | providers/base_provider.py:160-178 | The same for language identification |
| BaseProvider.CheckEndpointDetection | providers/base_provider.py:180-198 | The same for endpoint detection |
| BaseProvider.Provider.constructor | providers/base_provider.py:15-18 | A new provider is not connected, has no error and holds its configuration |
| BaseProvider.Provider.ValidateProviderCapabilities | providers/base_provider.py:29-35 | Delegation: the outcome and the new configuration are those of `validate_capabilities` on the provider's declared features |
| BaseProvider.RaisesIff | providers/base_provider.py:102-138 | It raises iff the mode is `"mt"` and the translation config is missing, or one-way is unsupported, or two-way is requested and unsupported |
| BaseProvider.RaiseLeavesParams | providers/base_provider.py:102-138 | Every raise leaves the parameters unchanged |
| BaseProvider.OneWayUnsupportedRaises | providers/base_provider.py:107-110 | In `"mt"` mode an unsupported one-way translation raises `ProviderError("Translation is not supported by <provider>.")`, whatever the type |
| BaseProvider.TwoWayPartialWarns | providers/base_provider.py:125-138 | A partial two-way translation yields one `"info"` message first, with the comment or the default text |
| BaseProvider.OneWayPartialOnlyForOneWay | providers/base_provider.py:112-123 | For a type other than `"one_way"`, a partial one-way state acts exactly as a supported one |
| BaseProvider.NonMtIgnoresTranslation | providers/base_provider.py:102 | Outside `"mt"` mode the call never raises and the translation features do not matter |
| BaseProvider.FlagsOnlyTurnedOff | providers/base_provider.py:140-190 | Mode and translation stay. Flags are only switched off, and only for an unsupported feature |
| BaseProvider.FlagCheckShape | providers/base_provider.py:140-158 | A flag check yields at most one message and none for an unrequested flag. Its message is a `"warning"` exactly when it switches the flag off, and the flag stays on exactly when it was requested and the feature is not unsupported. A requested unsupported feature gives the disabling warning, a partial one one info with its comment or the default text, a supported one nothing |
| BaseProvider.TranslationWarningsAreInfos | providers/base_provider.py:116-138 | The translation checks produce only `"info"` messages |
| BaseProvider.FlagCheckWarnings | providers/base_provider.py:140-158 | One flag check yields as many `"warning"` messages as flags it switched off |
| BaseProvider.WarningsCountDisabledFlags | providers/base_provider.py:140-198 | The `"warning"` messages correspond one to one to the flags switched off |
| BaseProvider.WarningOrder | providers/base_provider.py:100-200 | The warnings are those of translation, diarization, language identification and endpoint detection, in that order, at most one each |
| FeatureContext.AvailableComparisonProviders | frontend/src/contexts/feature-context.tsx:61-65 | Empty before the features load; then every listed provider except Soniox, in list order |
| FeatureContext.AvailableWhenSonioxUnlisted | frontend/src/contexts/feature-context.tsx:61-65 | With Soniox outside the list, the whole list is offered |
| FeatureContext.Visible | frontend/src/contexts/feature-context.tsx:108-111 | The filter keeps exactly the entries whose key is not one of `confidence_scores`, `timestamps`, `name`, `model` |
| FeatureContext.VisibleAppend | frontend/src/contexts/feature-context.tsx:108-111 | The filter keeps the entries' relative order |
| FeatureContext.ProviderFeatures | frontend/src/contexts/feature-context.tsx:106-115 | No entries when unloaded or unknown; otherwise exactly the provider's entries with a visible key, in their order (the `Visible` filter) |
| FeatureContext.FeatureSet | frontend/src/contexts/feature-context.tsx:117-119 | Empty before the features load or without Soniox's entry; otherwise the keys of Soniox's visible entries, one per entry in entry order, never a hidden key |
| FeatureContext.Icon | frontend/src/contexts/feature-context.tsx:125-145 | The icon choice itself; characterised by `IconMeaning` |
| FeatureContext.IconMeaning | frontend/src/contexts/feature-context.tsx:125-145 | ✅ exactly for `true` or a supported feature; ❌ exactly for `false` or an unsupported one; ⚠️ exactly for a partial one |
| FeatureContext.Line | frontend/src/contexts/feature-context.tsx:143-151 | The icon and a space come first. A flag is followed by its raw key and `:`, a feature description by the title of its key. The line has no line break if the key and title have none |
| FeatureContext.NonString | frontend/src/contexts/feature-context.tsx:137-142 | Exactly the entries whose value is not a string |
| FeatureContext.NonStringAppend | frontend/src/contexts/feature-context.tsx:137-142 | The filter keeps the entries' relative order |
| FeatureContext.TableLines | frontend/src/contexts/feature-context.tsx:136-151 | One line per non-string entry, in entry order |
| FeatureContext.TableLinesSnoc | frontend/src/contexts/feature-context.tsx:136-151 | A string entry adds no line; any other adds its own line at the end |
| FeatureContext.TextTable | frontend/src/contexts/feature-context.tsx:121-152 | The `getProviderFeaturesTextTable` expression itself; characterised by `TextTableSplits`, `TableLines` and `TableLinesSnoc` |
| FeatureContext.TextTableSplits | frontend/src/contexts/feature-context.tsx:136-152 | Splitting the table at line breaks gives back exactly its lines |
| SearchSelect.FindByValue | frontend/src/components/ui/search-select.tsx:61 | `find` by value: the first index with the value, or none |
| SearchSelect.Selected | frontend/src/components/ui/search-select.tsx:61 | The selected option is an option with the value, and there is one whenever some option has it |
| SearchSelect.FilterScore | frontend/src/components/ui/search-select.tsx:64-70 | The score is 0 or 1. It is 1 exactly when the first option with the value has a lower-cased label containing the lower-cased search, and 0 when no option has the value |
| SearchSelect.EmptySearchMatchesKnown | frontend/src/components/ui/search-select.tsx:64-70 | An empty search matches every known value |
| SearchSelect.OwnLabelMatches | frontend/src/components/ui/search-select.tsx:64-70 | An option's own label, as written or lower-cased, matches it, for the first option with its value |
| SearchSelect.Highlighted | frontend/src/components/ui/search-select.tsx:72-77 | Exactly the options with a highlighted value other than the selected value |
| SearchSelect.Others | frontend/src/components/ui/search-select.tsx:79-84 | Exactly the options with a value that is not highlighted and not the selected value |
| SearchSelect.GroupsPartition | frontend/src/components/ui/search-select.tsx:72-84 | Counted with multiplicity, the two groups together are exactly the options whose value is not the selected value |
| SearchSelect.GroupsDisjoint | frontend/src/components/ui/search-select.tsx:72-84 | No option is in both groups, and no option in either has the selected value |
| SearchSelect.OnSelect | frontend/src/components/ui/search-select.tsx:90-93 | The `onSelect` expression itself; characterised by `SelectTwiceDeselects` |
| SearchSelect.SelectTwiceDeselects | frontend/src/components/ui/search-select.tsx:90-93 | Choosing another option selects it; choosing it again emits `""` |
| SearchSelect.StripLeadingUnderscore | frontend/src/components/ui/search-select.tsx:187-189 | The `replace(/^_/, "")` itself; characterised by `StripOneUnderscore` and `StripLeavesOthers` |
| SearchSelect.StripOneUnderscore | frontend/src/components/ui/search-select.tsx:187-189 | Exactly one leading underscore goes, so `"_Any Language (AUTO)"` shows as `"Any Language (AUTO)"` |
| SearchSelect.StripLeavesOthers | frontend/src/components/ui/search-select.tsx:187-189 | A string that does not start with an underscore is left unchanged |
| SearchSelect.TriggerLabel | frontend/src/components/ui/search-select.tsx:139-141 | The trigger's text expression itself; characterised by `TriggerShowsSelection` |
| SearchSelect.TriggerShowsSelection | frontend/src/components/ui/search-select.tsx:139-141 | The trigger shows the stripped label of the first option with the value; with none, the placeholder or its default |
| SearchSelect.Groups | frontend/src/components/ui/search-select.tsx:111-129 | Every group drawn is non-empty, and the "Others" heading appears only with a non-empty "Suggested" group |
| SearchSelect.SelectedOnlyInLeadingGroup | frontend/src/components/ui/search-select.tsx:113-115 | The selected option leads alone in the first group, and no later group holds an option with its value |
| UseSwipe.Classify | frontend/src/hooks/use-swipe.ts:49-66 | At most one direction fires, and only one whose callback was given |
| UseSwipe.ClassifyIff | frontend/src/hooks/use-swipe.ts:49-66 | A direction fires exactly when the gesture runs mainly along its axis (ties count as vertical), is longer than 10 in its sense, and its callback was given |
| UseSwipe.ShortGestureFiresNothing | frontend/src/hooks/use-swipe.ts:54-65 | A movement of at most 10 along both axes fires nothing |
| UseSwipe.ReverseGesture | frontend/src/hooks/use-swipe.ts:49-66 | The reversed gesture fires the opposite direction, with the callbacks mirrored |
| UseSwipe.Swipe.constructor | frontend/src/hooks/use-swipe.ts:21-22 | Both slots start empty |
| UseSwipe.Swipe.OnTouchStart | frontend/src/hooks/use-swipe.ts:24-34 | A rejected touch clears the start and keeps the end; otherwise the end is cleared and the start recorded |
| UseSwipe.Swipe.OnTouchMove | frontend/src/hooks/use-swipe.ts:36-42 | The end point is recorded only when a start exists |
| UseSwipe.Swipe.OnTouchEnd | frontend/src/hooks/use-swipe.ts:44-70 | With both slots set, fires what `Classify` says and clears both; otherwise fires nothing and changes nothing |
| UseSwipe.TapFiresNothing | frontend/src/hooks/use-swipe.ts:24-47 | A touch start followed by a touch end fires nothing |
| UseSwipe.RejectedStartFiresNothing | frontend/src/hooks/use-swipe.ts:25-47 | After a rejected touch start, moves and the touch end fire nothing |
| UseSwipe.Gesture | frontend/src/hooks/use-swipe.ts:24-70 | Start, move and end on a fresh recogniser fire exactly what `Classify` says |
| ControlPanel.ToggleProvider | frontend/src/components/sidebar/control-panel.tsx:49-58 | The `handleProviderSelectionChange` update itself; characterised by `ToggleShowsChoice`, `CheckAddsOccurrence`, `CheckThenUncheck` and `UncheckAbsent` |
| ControlPanel.ToggleShowsChoice | frontend/src/components/sidebar/control-panel.tsx:49-58 | The provider is selected afterwards iff it was checked with `true`; other providers are unaffected |
| ControlPanel.CheckAddsOccurrence | frontend/src/components/sidebar/control-panel.tsx:53-55 | Checking adds exactly one occurrence, with no de-duplication |
| ControlPanel.CheckThenUncheck | frontend/src/components/sidebar/control-panel.tsx:53-56 | Checking and then unchecking removes every occurrence and keeps the other providers in order |
| ControlPanel.UncheckAbsent | frontend/src/components/sidebar/control-panel.tsx:56 | Unchecking an unselected provider changes nothing |
| ControlPanel.LanguageHintsFor | frontend/src/components/sidebar/control-panel.tsx:60-66 | At most one hint; none exactly for `"AUTO"`, otherwise the chosen value |
| ControlPanel.HintDisplay | frontend/src/components/sidebar/control-panel.tsx:210 | The select's value expression itself; characterised by `HintRoundTrip` and `HintsRoundTrip` |
| ControlPanel.HintRoundTrip | frontend/src/components/sidebar/control-panel.tsx:209-211 | Choosing a value and reading the select back gives that value |
| ControlPanel.HintsRoundTrip | frontend/src/components/sidebar/control-panel.tsx:209-211 | Reading the select and choosing what it shows keeps any list of at most one hint other than `["AUTO"]` |
| ControlPanel.ModeAfter | frontend/src/components/sidebar/control-panel.tsx:161-163 | The `if (v) setMode(v)` update itself; characterised by `ModeStaysValid` |
| ControlPanel.ModeStaysValid | frontend/src/components/sidebar/control-panel.tsx:157-163 | The mode stays `"stt"` or `"mt"`: a click on an item selects it, and re-clicking the active item keeps the mode |
| ControlPanel.ProviderCheckboxDisabled | frontend/src/components/sidebar/control-panel.tsx:121 | The `disabled` expression itself; characterised by `DisableRules` |
| ControlPanel.SettingsLocked | frontend/src/components/sidebar/control-panel.tsx:165 | The `disabled` expression of the mode toggle and the language select (lines 165, 212) itself; characterised by `DisableRules` |
| ControlPanel.OptionCheckboxDisabled | frontend/src/components/sidebar/control-panel.tsx:242 | The `disabled` expression of the three option checkboxes (lines 242, 259, 276) itself; characterised by `DisableRules` |
| ControlPanel.DisableRules | frontend/src/components/sidebar/control-panel.tsx:121-276 | While recording every control is locked. While starting the option checkboxes are locked (lines 242, 259, 276) and the mode toggle and language select are not (lines 165, 212). In every state other than recording, the provider checkboxes are locked exactly while the features are unloaded (line 121) |

## Left out

- The fetch of the provider features (frontend/src/contexts/feature-context.tsx:67-104) is I/O; the loaded features are a parameter.
- The abstract async `connect`, `disconnect`, `send`, `send_end` and `receive` of providers/base_provider.py:37-72 have no body to model. `get_available_features` is a field holding the features.
- `log_connected` and `is_connected` (providers/base_provider.py:20-27) are a debug print and a field read.
- The recording orchestrator, `OutputData` and the recording states live in `@/contexts/comparison-context`, which is not part of this model. The recording state is a string.
- Sorting by `localeCompare` is locale-dependent, so every list builder returns its codes in insertion order. The `"*"`-first comparator of `getEveryPossibleSourceLanguage` is kept only in that `"*"` is first, because it is inserted first.
- TranslationUtils.GetEveryPossibleSourceLanguage: states that `"*"` comes first but not the sorted order of the rest.
- SearchSelect.Highlighted: states group membership but not the sort by label.
- SearchSelect.Others: states group membership but not the sort by label.
- `Intl.DisplayNames` names of language tags, `confidence.toFixed(2)`, the speaker colour and all CSS classes are presentation.
- TranscriptRenderer.ErrorMessage: lengths count sequence elements, not UTF-16 code units.
- JsString.ToLower: only ASCII letters are lower-cased, and JavaScript's full Unicode case mapping is not modelled.
- TranscriptRenderer.FormatTimeFields: covers non-negative whole milliseconds only. Negative, fractional and NaN inputs are not modelled.
- Touch coordinates are integers rather than browser floats.
- Zod schema parsing is a library call; the records are Dafny datatypes.
- `Object.entries` moving integer-like keys first is not modelled: an object is its entry sequence in order.
- `snakeCaseToTitle` and `SONIOX_PROVIDER` are defined outside the shown files, so they are parameters.
- The from-to-languages wrapper, in which a pair with an empty side counts as valid, is UI wiring outside this model.

## Findings

| source | as written | input that shows it | evidently intended | confidence | as-written member | corrected member |
|---|---|---|---|---|---|---|
| frontend/src/lib/translation-utils.ts:53-57 | `getAvailableTargetLanguagesForModel` adds `lang2` from `pair.split(":")` unconditionally | a two-way pair `"en"` without a colon puts `undefined` into the target list; its entry's name is then `undefined` too, so the `localeCompare` sort at line 64 can throw a TypeError instead of returning the list | skip a missing field, as the sibling builders at lines 117-118 and 138-140 do | not executed | TranslationUtils.AvailableTargetsAsWrittenUndefined, TranslationUtils.UndefinedTargetExample | TranslationUtils.GetAvailableTargetLanguagesForModel |
| frontend/src/lib/translation-utils.ts:92-100 | the two-way branch of `getAvailableSourceLanguagesForModel` adds `lang2` whenever `lang1` equals the target | the pair `"en"` with target `"en"` puts `undefined` into the source list | add `lang2` only when it is present | not executed | TranslationUtils.AvailableSourcesAsWrittenUndefined, TranslationUtils.UndefinedSourceExample | TranslationUtils.GetAvailableSourceLanguagesForModel |
