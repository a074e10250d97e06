/**
 * Capability validation of a speech-to-text / translation provider
 * (providers/base_provider.py).
 *
 * `validate_capabilities` checks a requested configuration against the
 * provider's feature states. It raises on fatal translation mismatches,
 * switches unsupported optional flags off in the configuration object and
 * returns its warnings in order. `Validate` states that behaviour as a
 * function of a snapshot of the parameters; `ValidateCapabilities` is the
 * step-by-step procedure on the mutable parameter object, proved equal to it.
 */
module BaseProvider {
  import opened Collections

  datatype FeatureState = Supported | Unsupported | Partial

  datatype FeatureInfo = FeatureInfo(state: FeatureState, comment: Option<string>)

  datatype SupportedFeatures = SupportedFeatures(
    translationOneWay: FeatureInfo,
    translationTwoWay: FeatureInfo,
    speakerDiarization: FeatureInfo,
    languageIdentification: FeatureInfo,
    endpointDetection: FeatureInfo)

  /** The translation part of the parameters; `kind` is `"one_way"` or `"two_way"`. */
  datatype TranslationConfig = TranslationConfig(kind: string)

  datatype Level = Info | Warning

  /** The record `info_message(provider, message, level=...)` builds. */
  datatype InfoMessage = InfoMessage(provider: string, message: string, level: Level)

  /** `ProviderError`, and the `AssertionError` of the `mt` assertion. */
  datatype Failure = ProviderError(message: string) | AssertionFailed(message: string)

  /** What a call ends with: an exception, or the returned warning list. */
  datatype Outcome = Raised(failure: Failure) | Validated(warnings: seq<InfoMessage>)

  /** A snapshot of `config.params`. */
  datatype Settings = Settings(
    mode: string,
    translation: Option<TranslationConfig>,
    enableSpeakerDiarization: bool,
    enableLanguageIdentification: bool,
    enableEndpointDetection: bool)

  const MtMode := "mt"
  const OneWayKind := "one_way"
  const TwoWayKind := "two_way"

  const MissingTranslation := "mt mode specified, but translation config is none."
  const OneWayPartialText := "Translation from one language to another is only partially supported."
  const TwoWayPartialText := "Translation between two languages is only partially supported."
  const DiarizationDisabledText := "Speaker diarization is not supported by this provider and has been disabled."
  const DiarizationPartialText := "Speaker diarization is partially supported."
  const LanguageIdDisabledText := "Language identification is not supported and has been disabled."
  const LanguageIdPartialText := "Language identification is partially supported."
  const EndpointDisabledText := "Endpoint detection is not supported and has been disabled."
  const EndpointPartialText := "Endpoint detection is partially supported."

  function OneWayUnsupportedText(provider: string): string {
    "Translation is not supported by " + provider + "."
  }

  function TwoWayUnsupportedText(provider: string): string {
    "Translation between two languages is not supported by " + provider + "."
  }

  /** `comment or fallback`: a missing or empty comment gives the fallback. */
  function Described(comment: Option<string>, fallback: string): (r: string)
    ensures comment.Some? && comment.value != "" ==> r == comment.value
    ensures comment.None? || comment.value == "" ==> r == fallback
  {
    if comment.Some? && comment.value != "" then comment.value else fallback
  }

  // ---------------------------------------------------------------- specification

  /** The translation checks (lines 102-138): an exception, or at most one warning. */
  function TranslationCheck(f: SupportedFeatures, s: Settings, provider: string): Outcome {
    if s.mode != MtMode then Validated([])
    else if s.translation.None? then Raised(AssertionFailed(MissingTranslation))
    else if f.translationOneWay.state == Unsupported then Raised(ProviderError(OneWayUnsupportedText(provider)))
    else
      var kind := s.translation.value.kind;
      var oneWay :=
        if kind == OneWayKind && f.translationOneWay.state == Partial
        then [InfoMessage(provider, Described(f.translationOneWay.comment, OneWayPartialText), Info)]
        else [];
      if kind != TwoWayKind then Validated(oneWay)
      else if f.translationTwoWay.state == Unsupported then Raised(ProviderError(TwoWayUnsupportedText(provider)))
      else if f.translationTwoWay.state == Partial
      then Validated(oneWay + [InfoMessage(provider, Described(f.translationTwoWay.comment, TwoWayPartialText), Info)])
      else Validated(oneWay)
  }

  /** One optional-flag check: its warnings and the flag's new value. */
  function FlagCheck(requested: bool, info: FeatureInfo, provider: string, disabledText: string, partialText: string)
    : (seq<InfoMessage>, bool)
  {
    if !requested then ([], false)
    else
      match info.state
      case Unsupported => ([InfoMessage(provider, disabledText, Warning)], false)
      case Partial => ([InfoMessage(provider, Described(info.comment, partialText), Info)], true)
      case Supported => ([], true)
  }

  function DiarizationCheck(f: SupportedFeatures, s: Settings, provider: string): (seq<InfoMessage>, bool) {
    FlagCheck(s.enableSpeakerDiarization, f.speakerDiarization, provider, DiarizationDisabledText, DiarizationPartialText)
  }

  function LanguageIdCheck(f: SupportedFeatures, s: Settings, provider: string): (seq<InfoMessage>, bool) {
    FlagCheck(s.enableLanguageIdentification, f.languageIdentification, provider, LanguageIdDisabledText, LanguageIdPartialText)
  }

  function EndpointCheck(f: SupportedFeatures, s: Settings, provider: string): (seq<InfoMessage>, bool) {
    FlagCheck(s.enableEndpointDetection, f.endpointDetection, provider, EndpointDisabledText, EndpointPartialText)
  }

  /** `validate_capabilities` on a snapshot: its outcome and the parameters it leaves behind. */
  function Validate(f: SupportedFeatures, s: Settings, provider: string): (Outcome, Settings) {
    match TranslationCheck(f, s, provider)
    case Raised(e) => (Raised(e), s)
    case Validated(t) =>
      var d := DiarizationCheck(f, s, provider);
      var l := LanguageIdCheck(f, s, provider);
      var e := EndpointCheck(f, s, provider);
      (Validated(t + d.0 + l.0 + e.0),
       s.(enableSpeakerDiarization := d.1, enableLanguageIdentification := l.1, enableEndpointDetection := e.1))
  }

  // ---------------------------------------------------------------- the mutable configuration

  /** `config.params`, whose flags `validate_capabilities` assigns in place. */
  class Params {
    var mode: string
    var translation: Option<TranslationConfig>
    var enableSpeakerDiarization: bool
    var enableLanguageIdentification: bool
    var enableEndpointDetection: bool

    constructor (s: Settings)
      ensures Value() == s
    {
      mode := s.mode;
      translation := s.translation;
      enableSpeakerDiarization := s.enableSpeakerDiarization;
      enableLanguageIdentification := s.enableLanguageIdentification;
      enableEndpointDetection := s.enableEndpointDetection;
    }

    function Value(): Settings
      reads this
    {
      Settings(mode, translation, enableSpeakerDiarization, enableLanguageIdentification, enableEndpointDetection)
    }
  }

  /** `validate_capabilities(features, config, provider)`. */
  method ValidateCapabilities(features: SupportedFeatures, params: Params, provider: string) returns (outcome: Outcome)
    modifies params
    ensures (outcome, params.Value()) == Validate(features, old(params.Value()), provider)
  {
    var translation := CheckTranslation(features, params, provider);
    if translation.Raised? {
      return translation;
    }
    var warnings := translation.warnings;
    warnings := CheckDiarization(features, params, provider, warnings);
    warnings := CheckLanguageIdentification(features, params, provider, warnings);
    warnings := CheckEndpointDetection(features, params, provider, warnings);
    outcome := Validated(warnings);
  }

  /** Lines 100-138: the translation checks, which raise or collect their warnings. */
  method CheckTranslation(features: SupportedFeatures, params: Params, provider: string) returns (outcome: Outcome)
    ensures outcome == TranslationCheck(features, params.Value(), provider)
  {
    var warnings: seq<InfoMessage> := [];
    if params.mode == MtMode {
      if params.translation.None? {
        return Raised(AssertionFailed(MissingTranslation));
      }
      if features.translationOneWay.state == Unsupported {
        return Raised(ProviderError(OneWayUnsupportedText(provider)));
      }
      if params.translation.value.kind == OneWayKind && features.translationOneWay.state == Partial {
        warnings := warnings + [InfoMessage(provider, Described(features.translationOneWay.comment, OneWayPartialText), Info)];
      }
      if params.translation.value.kind == TwoWayKind {
        if features.translationTwoWay.state == Unsupported {
          return Raised(ProviderError(TwoWayUnsupportedText(provider)));
        } else if features.translationTwoWay.state == Partial {
          warnings := warnings + [InfoMessage(provider, Described(features.translationTwoWay.comment, TwoWayPartialText), Info)];
        }
      }
    }
    outcome := Validated(warnings);
  }

  /** Lines 140-158. */
  method CheckDiarization(features: SupportedFeatures, params: Params, provider: string, warnings: seq<InfoMessage>)
    returns (result: seq<InfoMessage>)
    modifies params
    ensures var c := DiarizationCheck(features, old(params.Value()), provider);
      result == warnings + c.0 && params.Value() == old(params.Value()).(enableSpeakerDiarization := c.1)
  {
    result := warnings;
    if params.enableSpeakerDiarization {
      var state := features.speakerDiarization;
      if state.state == Unsupported {
        result := result + [InfoMessage(provider, DiarizationDisabledText, Warning)];
        params.enableSpeakerDiarization := false;
      } else if state.state == Partial {
        result := result + [InfoMessage(provider, Described(state.comment, DiarizationPartialText), Info)];
      }
    }
  }

  /** Lines 160-178. */
  method CheckLanguageIdentification(features: SupportedFeatures, params: Params, provider: string, warnings: seq<InfoMessage>)
    returns (result: seq<InfoMessage>)
    modifies params
    ensures var c := LanguageIdCheck(features, old(params.Value()), provider);
      result == warnings + c.0 && params.Value() == old(params.Value()).(enableLanguageIdentification := c.1)
  {
    result := warnings;
    if params.enableLanguageIdentification {
      var state := features.languageIdentification;
      if state.state == Unsupported {
        result := result + [InfoMessage(provider, LanguageIdDisabledText, Warning)];
        params.enableLanguageIdentification := false;
      } else if state.state == Partial {
        result := result + [InfoMessage(provider, Described(state.comment, LanguageIdPartialText), Info)];
      }
    }
  }

  /** Lines 180-198. */
  method CheckEndpointDetection(features: SupportedFeatures, params: Params, provider: string, warnings: seq<InfoMessage>)
    returns (result: seq<InfoMessage>)
    modifies params
    ensures var c := EndpointCheck(features, old(params.Value()), provider);
      result == warnings + c.0 && params.Value() == old(params.Value()).(enableEndpointDetection := c.1)
  {
    result := warnings;
    if params.enableEndpointDetection {
      var state := features.endpointDetection;
      if state.state == Unsupported {
        result := result + [InfoMessage(provider, EndpointDisabledText, Warning)];
        params.enableEndpointDetection := false;
      } else if state.state == Partial {
        result := result + [InfoMessage(provider, Described(state.comment, EndpointPartialText), Info)];
      }
    }
  }

  /** `BaseProvider`: a provider with its configuration and the features its class declares. */
  class Provider {
    var isConnected: bool
    var error: Option<string>
    const config: Params
    const features: SupportedFeatures

    constructor (config: Params, features: SupportedFeatures)
      ensures !isConnected && error.None?
      ensures this.config == config && this.features == features
    {
      isConnected := false;
      error := None;
      this.config := config;
      this.features := features;
    }

    /** `validate_provider_capabilities(name)`: delegates to the module-level check on this provider's state. */
    method ValidateProviderCapabilities(name: string) returns (outcome: Outcome)
      modifies config
      ensures (outcome, config.Value()) == Validate(features, old(config.Value()), name)
    {
      outcome := ValidateCapabilities(features, config, name);
    }
  }

  // ---------------------------------------------------------------- properties

  /** It raises exactly in `mt` mode, when translation is missing, one-way is unsupported, or two-way is requested and unsupported. */
  lemma RaisesIff(f: SupportedFeatures, s: Settings, provider: string)
    ensures Validate(f, s, provider).0.Raised? <==>
      s.mode == MtMode && (s.translation.None? || f.translationOneWay.state == Unsupported
        || (s.translation.value.kind == TwoWayKind && f.translationTwoWay.state == Unsupported))
  {
  }

  /** Every raise happens before any flag is assigned: the parameters are left as they were. */
  lemma RaiseLeavesParams(f: SupportedFeatures, s: Settings, provider: string)
    requires Validate(f, s, provider).0.Raised?
    ensures Validate(f, s, provider).1 == s
  {
  }

  /** In `mt` mode an unsupported one-way translation raises whatever the translation type. */
  lemma OneWayUnsupportedRaises(f: SupportedFeatures, s: Settings, provider: string)
    requires s.mode == MtMode && s.translation.Some? && f.translationOneWay.state == Unsupported
    ensures Validate(f, s, provider).0 == Raised(ProviderError(OneWayUnsupportedText(provider)))
  {
  }

  /** A partially supported two-way translation leads the warnings with one info message. */
  lemma TwoWayPartialWarns(f: SupportedFeatures, s: Settings, provider: string)
    requires s.mode == MtMode && s.translation == Some(TranslationConfig(TwoWayKind))
    requires f.translationOneWay.state != Unsupported && f.translationTwoWay.state == Partial
    ensures Validate(f, s, provider).0.Validated?
    ensures var w := Validate(f, s, provider).0.warnings;
      |w| >= 1 && w[0] == InfoMessage(provider, Described(f.translationTwoWay.comment, TwoWayPartialText), Info)
  {
  }

  /** The one-way partial state is reported only for a `"one_way"` request: otherwise it acts as supported. */
  lemma OneWayPartialOnlyForOneWay(f: SupportedFeatures, s: Settings, provider: string)
    requires s.mode == MtMode && s.translation.Some? && s.translation.value.kind != OneWayKind
    requires f.translationOneWay.state == Partial
    ensures Validate(f, s, provider) == Validate(f.(translationOneWay := FeatureInfo(Supported, None)), s, provider)
  {
  }

  /** Outside `mt` mode no translation check runs: the translation features do not matter. */
  lemma NonMtIgnoresTranslation(f: SupportedFeatures, g: SupportedFeatures, s: Settings, provider: string)
    requires s.mode != MtMode
    requires f.speakerDiarization == g.speakerDiarization
    requires f.languageIdentification == g.languageIdentification
    requires f.endpointDetection == g.endpointDetection
    ensures Validate(f, s, provider) == Validate(g, s, provider)
    ensures Validate(f, s, provider).0.Validated?
  {
  }

  /** Flags are only switched off, and only when the feature is unsupported; mode and translation stay. */
  lemma FlagsOnlyTurnedOff(f: SupportedFeatures, s: Settings, provider: string)
    ensures var t := Validate(f, s, provider).1;
      && t.mode == s.mode && t.translation == s.translation
      && (t.enableSpeakerDiarization ==> s.enableSpeakerDiarization)
      && (t.enableLanguageIdentification ==> s.enableLanguageIdentification)
      && (t.enableEndpointDetection ==> s.enableEndpointDetection)
      && (s.enableSpeakerDiarization && !t.enableSpeakerDiarization ==> f.speakerDiarization.state == Unsupported)
      && (s.enableLanguageIdentification && !t.enableLanguageIdentification ==> f.languageIdentification.state == Unsupported)
      && (s.enableEndpointDetection && !t.enableEndpointDetection ==> f.endpointDetection.state == Unsupported)
  {
  }

  /**
   * A flag check yields at most one message, none when the flag is not
   * requested, and a `"warning"` exactly when it disables the flag: an
   * unsupported feature gives the disabling warning, a partial one an info
   * with its comment or the default text, a supported one nothing.
   */
  lemma FlagCheckShape(requested: bool, info: FeatureInfo, provider: string, disabledText: string, partialText: string)
    ensures var c := FlagCheck(requested, info, provider, disabledText, partialText);
      && |c.0| <= 1
      && (!requested ==> c.0 == [] && !c.1)
      && (c.0 != [] && c.0[0].level == Warning <==> requested && !c.1)
      && (c.1 <==> requested && info.state != Unsupported)
      && (requested && info.state == Partial ==> c.0 == [InfoMessage(provider, Described(info.comment, partialText), Info)])
      && (requested && info.state == Supported ==> c.0 == [])
      && (requested && info.state == Unsupported ==> c.0 == [InfoMessage(provider, disabledText, Warning)])
  {
  }

  /** The number of messages with a given level. */
  function CountLevel(w: seq<InfoMessage>, level: Level): (n: nat)
    ensures n <= |w|
  {
    if w == [] then 0 else (if w[0].level == level then 1 else 0) + CountLevel(w[1..], level)
  }

  lemma {:induction false} CountLevelAppend(a: seq<InfoMessage>, b: seq<InfoMessage>, level: Level)
    ensures CountLevel(a + b, level) == CountLevel(a, level) + CountLevel(b, level)
  {
    if a == [] {
      assert a + b == b;
    } else {
      assert (a + b)[1..] == a[1..] + b;
      CountLevelAppend(a[1..], b, level);
    }
  }

  function Disabled(before: bool, after: bool): nat {
    if before && !after then 1 else 0
  }

  /** Translation messages are infos; so every `"warning"` reports exactly one flag that was switched off. */
  lemma WarningsCountDisabledFlags(f: SupportedFeatures, s: Settings, provider: string)
    requires Validate(f, s, provider).0.Validated?
    ensures var t := Validate(f, s, provider).1;
      CountLevel(Validate(f, s, provider).0.warnings, Warning)
        == Disabled(s.enableSpeakerDiarization, t.enableSpeakerDiarization)
         + Disabled(s.enableLanguageIdentification, t.enableLanguageIdentification)
         + Disabled(s.enableEndpointDetection, t.enableEndpointDetection)
  {
    var tr := TranslationCheck(f, s, provider).warnings;
    var d := DiarizationCheck(f, s, provider);
    var l := LanguageIdCheck(f, s, provider);
    var e := EndpointCheck(f, s, provider);
    CountLevelAppend(tr + d.0 + l.0, e.0, Warning);
    CountLevelAppend(tr + d.0, l.0, Warning);
    CountLevelAppend(tr, d.0, Warning);
    TranslationWarningsAreInfos(f, s, provider);
    FlagCheckWarnings(s.enableSpeakerDiarization, f.speakerDiarization, provider, DiarizationDisabledText, DiarizationPartialText);
    FlagCheckWarnings(s.enableLanguageIdentification, f.languageIdentification, provider, LanguageIdDisabledText, LanguageIdPartialText);
    FlagCheckWarnings(s.enableEndpointDetection, f.endpointDetection, provider, EndpointDisabledText, EndpointPartialText);
  }

  lemma TranslationWarningsAreInfos(f: SupportedFeatures, s: Settings, provider: string)
    requires TranslationCheck(f, s, provider).Validated?
    ensures CountLevel(TranslationCheck(f, s, provider).warnings, Warning) == 0
  {
    var tr := TranslationCheck(f, s, provider).warnings;
    assert |tr| <= 1;
    if tr != [] {
      assert tr[1..] == [];
    }
  }

  lemma FlagCheckWarnings(requested: bool, info: FeatureInfo, provider: string, disabledText: string, partialText: string)
    ensures var c := FlagCheck(requested, info, provider, disabledText, partialText);
      CountLevel(c.0, Warning) == Disabled(requested, c.1)
  {
    var c := FlagCheck(requested, info, provider, disabledText, partialText);
    if c.0 != [] {
      assert c.0[1..] == [];
    }
  }

  /** The warnings come in check order, translation first, at most one per check. */
  lemma WarningOrder(f: SupportedFeatures, s: Settings, provider: string)
    requires Validate(f, s, provider).0.Validated?
    ensures var tr := TranslationCheck(f, s, provider).warnings;
      && Validate(f, s, provider).0.warnings
        == tr + DiarizationCheck(f, s, provider).0 + LanguageIdCheck(f, s, provider).0 + EndpointCheck(f, s, provider).0
      && |tr| <= 1 && |DiarizationCheck(f, s, provider).0| <= 1
      && |LanguageIdCheck(f, s, provider).0| <= 1 && |EndpointCheck(f, s, provider).0| <= 1
  {
  }
}
