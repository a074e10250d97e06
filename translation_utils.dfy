/**
 * Queries over a model's translation metadata (frontend/src/lib/translation-utils.ts).
 *
 * A model lists its languages, one-way rules (a target language and the
 * source languages that may be translated into it, `"*"` meaning any) and
 * two-way pairs written `"a:b"`. The validators are functions; the
 * list builders fill a `Set` in `forEach` loops and are methods proved
 * against membership predicates. The sort by display name that ends most
 * builders is not modelled: results are in insertion order.
 */
module TranslationUtils {
  import opened Collections
  import opened JsString

  datatype Language = Language(code: string, name: string)

  datatype TranslationTargetRule = TranslationTargetRule(
    excludeSourceLanguages: seq<string>,
    sourceLanguages: seq<string>,
    targetLanguage: string)

  datatype ModelInfo = ModelInfo(
    id: string,
    languages: seq<Language>,
    name: string,
    transcriptionMode: string,
    translationTargets: seq<TranslationTargetRule>,
    twoWayTranslationPairs: seq<string>)

  datatype TranslationType = OneWay | TwoWay

  const Wildcard := "*"
  const Auto := "AUTO"
  const AnyLanguageLabel := "_Any Language (AUTO)"
  const MultilingualLabel := "Multilingual (auto-identify)"
  const DefaultTarget := "en"

  /** The codes of a language list, in order. */
  function Codes(ls: seq<Language>): (r: seq<string>)
    ensures |r| == |ls|
    ensures forall i :: 0 <= i < |ls| ==> r[i] == ls[i].code
  {
    seq(|ls|, i requires 0 <= i < |ls| => ls[i].code)
  }

  // ---------------------------------------------------------------- finds

  /** `languages.find((l) => l.code === code)`, as the index of the first match. */
  function LanguageIndex(langs: seq<Language>, code: string): (r: Option<nat>)
    ensures r.None? ==> forall i :: 0 <= i < |langs| ==> langs[i].code != code
    ensures r.Some? ==> r.value < |langs| && langs[r.value].code == code
    ensures r.Some? ==> forall j :: 0 <= j < r.value ==> langs[j].code != code
  {
    if langs == [] then None
    else if langs[0].code == code then Some(0)
    else
      match LanguageIndex(langs[1..], code)
      case None => None
      case Some(k) => Some(k + 1)
  }

  /** `translation_targets.find((r) => r.target_language === t)`, as an index. */
  function RuleIndexForTarget(rules: seq<TranslationTargetRule>, t: string): (r: Option<nat>)
    ensures r.None? ==> forall i :: 0 <= i < |rules| ==> rules[i].targetLanguage != t
    ensures r.Some? ==> r.value < |rules| && rules[r.value].targetLanguage == t
    ensures r.Some? ==> forall j :: 0 <= j < r.value ==> rules[j].targetLanguage != t
  {
    if rules == [] then None
    else if rules[0].targetLanguage == t then Some(0)
    else
      match RuleIndexForTarget(rules[1..], t)
      case None => None
      case Some(k) => Some(k + 1)
  }

  /** `translation_targets.find((rule) => rule.source_languages.includes("*"))`, as an index. */
  function WildcardRuleIndex(rules: seq<TranslationTargetRule>): (r: Option<nat>)
    ensures r.None? ==> forall i :: 0 <= i < |rules| ==> Wildcard !in rules[i].sourceLanguages
    ensures r.Some? ==> r.value < |rules| && Wildcard in rules[r.value].sourceLanguages
    ensures r.Some? ==> forall j :: 0 <= j < r.value ==> Wildcard !in rules[j].sourceLanguages
  {
    if rules == [] then None
    else if Wildcard in rules[0].sourceLanguages then Some(0)
    else
      match WildcardRuleIndex(rules[1..])
      case None => None
      case Some(k) => Some(k + 1)
  }

  // ---------------------------------------------------------------- names

  /** `getLanguageNameByCode`. */
  function LanguageName(m: Option<ModelInfo>, code: string): (r: string)
    ensures code == Wildcard ==> r == AnyLanguageLabel
    ensures code == Auto ==> r == MultilingualLabel
    ensures code != Wildcard && code != Auto && m.None? ==> r == code
  {
    if code == Wildcard then AnyLanguageLabel
    else if code == Auto then MultilingualLabel
    else if m.None? then code
    else
      match LanguageIndex(m.value.languages, code)
      case Some(i) => if m.value.languages[i].name != "" then m.value.languages[i].name else code
      case None => code
  }

  /**
   * For any other code the name is that of the first language with the code,
   * and the code itself when no language has it or that name is empty.
   */
  lemma LanguageNameFirstMatch(m: ModelInfo, code: string, i: nat)
    requires code != Wildcard && code != Auto
    requires i < |m.languages| && m.languages[i].code == code
    requires forall j :: 0 <= j < i ==> m.languages[j].code != code
    ensures LanguageName(Some(m), code) == if m.languages[i].name != "" then m.languages[i].name else code
  {
    var k := LanguageIndex(m.languages, code);
    assert k.Some? && k.value == i;
  }

  lemma LanguageNameUnknown(m: ModelInfo, code: string)
    requires code != Wildcard && code != Auto
    requires forall j :: 0 <= j < |m.languages| ==> m.languages[j].code != code
    ensures LanguageName(Some(m), code) == code
  {
  }

  /** Every entry carries the display name of its code. */
  ghost predicate Named(m: ModelInfo, ls: seq<Language>) {
    forall i :: 0 <= i < |ls| ==> ls[i].name == LanguageName(Some(m), ls[i].code)
  }

  /** `Array.from(codes).map((code) => ({ code, name: getLanguageNameByCode(model, code) }))`. */
  function WithNames(m: ModelInfo, codes: seq<string>): (r: seq<Language>)
    ensures Codes(r) == codes
    ensures Named(m, r)
  {
    seq(|codes|, i requires 0 <= i < |codes| => Language(codes[i], LanguageName(Some(m), codes[i])))
  }

  // ---------------------------------------------------------------- validators

  /** `isOneWayTranslationPairValid`. */
  function IsOneWayValid(m: Option<ModelInfo>, source: string, target: string): bool {
    if m.None? || source == "" || target == "" then false
    else if source == Wildcard then
      match WildcardRuleIndex(m.value.translationTargets)
      case Some(i) => target == m.value.translationTargets[i].targetLanguage
      case None => false
    else if source == target then false
    else
      match RuleIndexForTarget(m.value.translationTargets, target)
      case None => false
      case Some(i) =>
        var rule := m.value.translationTargets[i];
        if Wildcard in rule.sourceLanguages then true else source in rule.sourceLanguages
  }

  /**
   * A concrete source (not `"*"`) is valid for a target iff it differs from
   * it and the first rule for that target admits it, by name or by `"*"`.
   */
  lemma OneWayValidConcrete(m: ModelInfo, source: string, target: string)
    requires source != Wildcard && source != "" && target != ""
    ensures IsOneWayValid(Some(m), source, target) <==>
      source != target && exists i ::
        && 0 <= i < |m.translationTargets| && m.translationTargets[i].targetLanguage == target
        && (forall j :: 0 <= j < i ==> m.translationTargets[j].targetLanguage != target)
        && (Wildcard in m.translationTargets[i].sourceLanguages || source in m.translationTargets[i].sourceLanguages)
  {
    var rules := m.translationTargets;
    var k := RuleIndexForTarget(rules, target);
    if k.Some? {
      forall i | 0 <= i < |rules| && rules[i].targetLanguage == target
        && (forall j :: 0 <= j < i ==> rules[j].targetLanguage != target)
        ensures i == k.value
      {
      }
    }
  }

  /** `"*"` as the source is valid iff the target is that of the first rule that accepts any source. */
  lemma OneWayValidWildcard(m: ModelInfo, target: string)
    requires target != ""
    ensures IsOneWayValid(Some(m), Wildcard, target) <==> exists i ::
      && 0 <= i < |m.translationTargets| && Wildcard in m.translationTargets[i].sourceLanguages
      && (forall j :: 0 <= j < i ==> Wildcard !in m.translationTargets[j].sourceLanguages)
      && m.translationTargets[i].targetLanguage == target
  {
    var rules := m.translationTargets;
    var k := WildcardRuleIndex(rules);
    if k.Some? {
      forall i | 0 <= i < |rules| && Wildcard in rules[i].sourceLanguages
        && (forall j :: 0 <= j < i ==> Wildcard !in rules[j].sourceLanguages)
        ensures i == k.value
      {
      }
    }
  }

  /** The two codes of a pair field-wise equal `{a, b}` in either order. */
  predicate PairMatches(fields: (string, Option<string>), a: string, b: string) {
    (fields.0 == a && fields.1 == Some(b)) || (fields.0 == b && fields.1 == Some(a))
  }

  /** `pairs.some(...)` of `isTwoWayTranslationPairValid`. */
  function AnyPairMatches(pairs: seq<string>, a: string, b: string): bool {
    pairs != [] && (PairMatches(SplitPair(pairs[0]), a, b) || AnyPairMatches(pairs[1..], a, b))
  }

  /** `some` holds iff some pair matches. */
  lemma {:induction false} AnyPairMatchesExists(pairs: seq<string>, a: string, b: string)
    ensures AnyPairMatches(pairs, a, b) <==> exists k :: 0 <= k < |pairs| && PairMatches(SplitPair(pairs[k]), a, b)
  {
    if pairs != [] {
      AnyPairMatchesExists(pairs[1..], a, b);
      if exists k :: 0 <= k < |pairs| && PairMatches(SplitPair(pairs[k]), a, b) {
        var k :| 0 <= k < |pairs| && PairMatches(SplitPair(pairs[k]), a, b);
        if k > 0 { assert pairs[1..][k - 1] == pairs[k]; }
      }
    }
  }

  /** `isTwoWayTranslationPairValid`. */
  function IsTwoWayValid(m: Option<ModelInfo>, a: string, b: string): bool {
    if m.None? || a == "" || b == "" then false
    else if a == b then false
    else AnyPairMatches(m.value.twoWayTranslationPairs, a, b)
  }

  /** Two-way validity does not depend on the order of the two languages. */
  lemma {:induction false} TwoWayValidSymmetric(m: Option<ModelInfo>, a: string, b: string)
    ensures IsTwoWayValid(m, a, b) == IsTwoWayValid(m, b, a)
  {
    if m.Some? {
      AnyPairMatchesExists(m.value.twoWayTranslationPairs, a, b);
      AnyPairMatchesExists(m.value.twoWayTranslationPairs, b, a);
    }
  }

  /** Two different non-empty codes are a valid two-way pair iff some pair string names them. */
  lemma TwoWayValidExists(m: ModelInfo, a: string, b: string)
    ensures IsTwoWayValid(Some(m), a, b) <==>
      a != "" && b != "" && a != b && exists k :: 0 <= k < |m.twoWayTranslationPairs| && PairMatches(SplitPair(m.twoWayTranslationPairs[k]), a, b)
  {
    AnyPairMatchesExists(m.twoWayTranslationPairs, a, b);
  }

  /** A pair written `"a:b"` makes `a` and `b` a valid two-way pair. */
  lemma TwoWayValidFromPair(m: ModelInfo, k: nat, a: string, b: string)
    requires k < |m.twoWayTranslationPairs| && m.twoWayTranslationPairs[k] == Join([a, b], ":")
    requires ':' !in a && ':' !in b && a != "" && b != "" && a != b
    ensures IsTwoWayValid(Some(m), a, b) && IsTwoWayValid(Some(m), b, a)
  {
    SplitPairOfJoined(a, b, []);
    assert [a, b] + [] == [a, b];
    TwoWayValidExists(m, a, b);
    TwoWayValidSymmetric(Some(m), a, b);
  }

  // ---------------------------------------------------------------- two-way partners

  /** The partner a pair offers for `a` in `getPartnerLanguagesForTwoWay` (its `if` / `else if`). */
  function PartnerVia(fields: (string, Option<string>), a: string): Option<string> {
    if fields.0 == a && fields.1.Some? && fields.1.value != "" then fields.1
    else if fields.1 == Some(a) && fields.0 != "" then Some(fields.0)
    else None
  }

  ghost predicate IsPartner(m: Option<ModelInfo>, a: string, c: string) {
    m.Some? && a != "" &&
    exists k :: 0 <= k < |m.value.twoWayTranslationPairs| && PartnerVia(SplitPair(m.value.twoWayTranslationPairs[k]), a) == Some(c)
  }

  /** `getPartnerLanguagesForTwoWay`. */
  method GetPartnerLanguagesForTwoWay(m: Option<ModelInfo>, langCode: string) returns (r: seq<Language>)
    ensures NoDup(Codes(r))
    ensures forall c :: c in Codes(r) <==> IsPartner(m, langCode, c)
    ensures m.Some? ==> Named(m.value, r)
  {
    if m.None? || langCode == "" {
      return [];
    }
    var pairs := m.value.twoWayTranslationPairs;
    var codes: seq<string> := [];
    var i := 0;
    while i < |pairs|
      invariant 0 <= i <= |pairs|
      invariant NoDup(codes)
      invariant forall c :: c in codes <==> exists k :: 0 <= k < i && PartnerVia(SplitPair(pairs[k]), langCode) == Some(c)
    {
      var fields := SplitPair(pairs[i]);
      var lang1, lang2 := fields.0, fields.1;
      if lang1 == langCode && lang2.Some? && lang2.value != "" {
        codes := SetAdd(codes, lang2.value);
      } else if lang2 == Some(langCode) && lang1 != "" {
        codes := SetAdd(codes, lang1);
      }
      i := i + 1;
    }
    r := WithNames(m.value, codes);
  }

  /** For two different non-empty codes, a pair offers `b` as the partner of `a` iff it names the two. */
  lemma PartnerViaMatches(fields: (string, Option<string>), a: string, b: string)
    requires a != "" && b != "" && a != b
    ensures PartnerVia(fields, a) == Some(b) <==> PairMatches(fields, a, b)
  {
  }

  /** For `b` other than `a`: `b` is offered as a partner of `a` iff `a` and `b` are a valid two-way pair. */
  lemma PartnerIffTwoWayValid(m: Option<ModelInfo>, a: string, b: string)
    requires b != a
    ensures IsPartner(m, a, b) <==> IsTwoWayValid(m, a, b)
  {
    if m.Some? && a != "" && b != "" {
      var pairs := m.value.twoWayTranslationPairs;
      AnyPairMatchesExists(pairs, a, b);
      forall k | 0 <= k < |pairs|
        ensures PartnerVia(SplitPair(pairs[k]), a) == Some(b) <==> PairMatches(SplitPair(pairs[k]), a, b)
      {
        PartnerViaMatches(SplitPair(pairs[k]), a, b);
      }
    }
  }

  // ---------------------------------------------------------------- languages of the two-way pairs

  ghost predicate InTwoWayPairs(m: Option<ModelInfo>, c: string) {
    m.Some? && c != "" &&
    exists k :: 0 <= k < |m.value.twoWayTranslationPairs| &&
      (SplitPair(m.value.twoWayTranslationPairs[k]).0 == c || SplitPair(m.value.twoWayTranslationPairs[k]).1 == Some(c))
  }

  /** `getUniqueLanguagesFromTwoWayPairs`. */
  method GetUniqueLanguagesFromTwoWayPairs(m: Option<ModelInfo>) returns (r: seq<Language>)
    ensures NoDup(Codes(r))
    ensures forall c :: c in Codes(r) <==> InTwoWayPairs(m, c)
    ensures m.Some? ==> Named(m.value, r)
  {
    if m.None? {
      return [];
    }
    var pairs := m.value.twoWayTranslationPairs;
    var codes: seq<string> := [];
    var i := 0;
    while i < |pairs|
      invariant 0 <= i <= |pairs|
      invariant NoDup(codes)
      invariant forall c :: c in codes <==> (c != "" && exists k :: (0 <= k < i &&
        (SplitPair(pairs[k]).0 == c || SplitPair(pairs[k]).1 == Some(c))))
    {
      var fields := SplitPair(pairs[i]);
      if fields.0 != "" {
        codes := SetAdd(codes, fields.0);
      }
      if fields.1.Some? && fields.1.value != "" {
        codes := SetAdd(codes, fields.1.value);
      }
      i := i + 1;
    }
    r := WithNames(m.value, codes);
  }

  /** Both sides of a valid two-way pair are among the languages of the pairs. */
  lemma TwoWayValidInPairs(m: Option<ModelInfo>, a: string, b: string)
    requires IsTwoWayValid(m, a, b)
    ensures InTwoWayPairs(m, a) && InTwoWayPairs(m, b)
  {
    var pairs := m.value.twoWayTranslationPairs;
    AnyPairMatchesExists(pairs, a, b);
    var k :| 0 <= k < |pairs| && PairMatches(SplitPair(pairs[k]), a, b);
  }

  // ---------------------------------------------------------------- targets and sources of the one-way rules

  ghost predicate IsRuleTarget(m: ModelInfo, c: string) {
    exists i :: 0 <= i < |m.translationTargets| && m.translationTargets[i].targetLanguage == c
  }

  /** The targets of the rules, each once, in rule order. */
  method RuleTargetCodes(rules: seq<TranslationTargetRule>) returns (codes: seq<string>)
    ensures NoDup(codes)
    ensures forall c :: c in codes <==> exists k :: 0 <= k < |rules| && rules[k].targetLanguage == c
  {
    codes := [];
    var i := 0;
    while i < |rules|
      invariant 0 <= i <= |rules|
      invariant NoDup(codes)
      invariant forall c :: c in codes <==> exists k :: 0 <= k < i && rules[k].targetLanguage == c
    {
      codes := SetAdd(codes, rules[i].targetLanguage);
      i := i + 1;
    }
  }

  /** `getEveryPossibleTargetLanguage`. */
  method GetEveryPossibleTargetLanguage(m: Option<ModelInfo>) returns (r: seq<Language>)
    ensures NoDup(Codes(r))
    ensures forall c :: c in Codes(r) <==> m.Some? && IsRuleTarget(m.value, c)
    ensures m.Some? ==> Named(m.value, r)
  {
    if m.None? {
      return [];
    }
    var codes := RuleTargetCodes(m.value.translationTargets);
    r := WithNames(m.value, codes);
  }

  ghost predicate HasWildcardRule(m: ModelInfo) {
    exists i :: 0 <= i < |m.translationTargets| && Wildcard in m.translationTargets[i].sourceLanguages
  }

  ghost predicate IsModelLanguage(m: ModelInfo, c: string) {
    exists i :: 0 <= i < |m.languages| && m.languages[i].code == c
  }

  ghost predicate IsNamedSource(m: ModelInfo, c: string) {
    c != Wildcard && exists i :: 0 <= i < |m.translationTargets| && c in m.translationTargets[i].sourceLanguages
  }

  /** The codes of all the model's languages, added to `codes` in order. */
  method AddModelLanguages(m: ModelInfo, codes: seq<string>) returns (r: seq<string>)
    requires NoDup(codes)
    ensures NoDup(r)
    ensures forall c :: c in r <==> c in codes || IsModelLanguage(m, c)
    ensures |codes| <= |r| && r[..|codes|] == codes
  {
    r := codes;
    var i := 0;
    while i < |m.languages|
      invariant 0 <= i <= |m.languages|
      invariant NoDup(r)
      invariant forall c :: c in r <==> c in codes || exists k :: 0 <= k < i && m.languages[k].code == c
      invariant |codes| <= |r| && r[..|codes|] == codes
    {
      r := SetAdd(r, m.languages[i].code);
      i := i + 1;
    }
  }

  /** `getEveryPossibleSourceLanguage`: with a wildcard rule, `"*"` first and every model language; else every named source. */
  method GetEveryPossibleSourceLanguage(m: Option<ModelInfo>) returns (r: seq<Language>)
    ensures NoDup(Codes(r))
    ensures m.Some? && HasWildcardRule(m.value) ==> r != [] && r[0].code == Wildcard
    ensures m.Some? && HasWildcardRule(m.value) ==> forall c :: c in Codes(r) <==> c == Wildcard || IsModelLanguage(m.value, c)
    ensures m.Some? && !HasWildcardRule(m.value) ==> forall c :: c in Codes(r) <==> IsNamedSource(m.value, c)
    ensures m.None? ==> r == []
    ensures m.Some? ==> Named(m.value, r)
  {
    if m.None? {
      return [];
    }
    var rules := m.value.translationTargets;
    var codes: seq<string>;
    if WildcardRuleIndex(rules).Some? {
      codes := AddModelLanguages(m.value, [Wildcard]);
    } else {
      codes := [];
      var i := 0;
      while i < |rules|
        invariant 0 <= i <= |rules|
        invariant NoDup(codes)
        invariant forall c :: c in codes <==> c != Wildcard && exists k :: 0 <= k < i && c in rules[k].sourceLanguages
      {
        var sources := rules[i].sourceLanguages;
        var j := 0;
        while j < |sources|
          invariant 0 <= j <= |sources|
          invariant NoDup(codes)
          invariant forall c :: c in codes <==> (c != Wildcard &&
            ((exists k :: 0 <= k < i && c in rules[k].sourceLanguages) || c in sources[..j]))
        {
          if sources[j] != Wildcard {
            codes := SetAdd(codes, sources[j]);
          }
          assert sources[..j + 1] == sources[..j] + [sources[j]];
          j := j + 1;
        }
        assert sources[..j] == sources;
        i := i + 1;
      }
    }
    r := WithNames(m.value, codes);
  }

  // ---------------------------------------------------------------- valid targets for a source

  ghost predicate IsValidTarget(m: ModelInfo, source: string, c: string) {
    if source == Wildcard then
      var code := match WildcardRuleIndex(m.translationTargets)
        case Some(i) => m.translationTargets[i].targetLanguage
        case None => DefaultTarget;
      c == code && IsModelLanguage(m, code)
    else
      c != source && exists i :: (0 <= i < |m.translationTargets| && m.translationTargets[i].targetLanguage == c &&
        (source in m.translationTargets[i].sourceLanguages || Wildcard in m.translationTargets[i].sourceLanguages))
  }

  /** `model.languages.some((l) => l.code === code)`. */
  function HasLanguage(langs: seq<Language>, code: string): (b: bool)
    ensures b <==> exists i :: 0 <= i < |langs| && langs[i].code == code
  {
    langs != [] && (langs[0].code == code || HasLanguage(langs[1..], code))
  }

  /** `getValidTargetLanguages`. */
  method GetValidTargetLanguages(m: Option<ModelInfo>, source: string) returns (r: seq<Language>)
    ensures NoDup(Codes(r))
    ensures forall c :: c in Codes(r) <==> m.Some? && source != "" && IsValidTarget(m.value, source, c)
    ensures source == Wildcard ==> |r| <= 1
    ensures m.Some? ==> Named(m.value, r)
  {
    if m.None? || source == "" {
      return [];
    }
    var rules := m.value.translationTargets;
    if source == Wildcard {
      var any := WildcardRuleIndex(rules);
      var code := if any.Some? then rules[any.value].targetLanguage else DefaultTarget;
      if HasLanguage(m.value.languages, code) {
        r := WithNames(m.value, [code]);
      } else {
        r := [];
      }
      return;
    }
    var codes: seq<string> := [];
    var i := 0;
    while i < |rules|
      invariant 0 <= i <= |rules|
      invariant NoDup(codes)
      invariant forall c :: c in codes <==> exists k :: (0 <= k < i && rules[k].targetLanguage == c &&
        (source in rules[k].sourceLanguages || Wildcard in rules[k].sourceLanguages))
    {
      var sourceAllowed := source in rules[i].sourceLanguages || Wildcard in rules[i].sourceLanguages;
      if sourceAllowed {
        codes := SetAdd(codes, rules[i].targetLanguage);
      }
      i := i + 1;
    }
    codes := Without(codes, source);
    r := WithNames(m.value, codes);
  }

  /** A valid one-way pair with a concrete source lists its target among the valid targets. */
  lemma OneWayValidTargetListed(m: ModelInfo, source: string, target: string)
    requires source != Wildcard && IsOneWayValid(Some(m), source, target)
    ensures IsValidTarget(m, source, target)
  {
    var i := RuleIndexForTarget(m.translationTargets, target).value;
    assert m.translationTargets[i].targetLanguage == target;
  }

  // ---------------------------------------------------------------- valid sources for a target

  ghost predicate IsValidSource(m: ModelInfo, target: string, c: string) {
    c != target &&
    match RuleIndexForTarget(m.translationTargets, target)
    case None => false
    case Some(i) =>
      var sources := m.translationTargets[i].sourceLanguages;
      if Wildcard in sources then c == Wildcard || IsModelLanguage(m, c) else c in sources
  }

  /** `getValidSourceLanguages`: consults only the first rule for the target. */
  method GetValidSourceLanguages(m: Option<ModelInfo>, target: string) returns (r: seq<Language>)
    ensures NoDup(Codes(r))
    ensures forall c :: c in Codes(r) <==> m.Some? && target != "" && IsValidSource(m.value, target, c)
    ensures target !in Codes(r)
    ensures m.Some? ==> Named(m.value, r)
  {
    if m.None? || target == "" {
      return [];
    }
    var codes: seq<string> := [];
    var rule := RuleIndexForTarget(m.value.translationTargets, target);
    if rule.Some? {
      var sources := m.value.translationTargets[rule.value].sourceLanguages;
      if Wildcard in sources {
        codes := AddModelLanguages(m.value, codes);
        codes := SetAdd(codes, Wildcard);
      } else {
        var j := 0;
        while j < |sources|
          invariant 0 <= j <= |sources|
          invariant NoDup(codes)
          invariant forall c :: c in codes <==> c in sources[..j]
        {
          codes := SetAdd(codes, sources[j]);
          assert sources[..j + 1] == sources[..j] + [sources[j]];
          j := j + 1;
        }
        assert sources[..j] == sources;
      }
    }
    codes := Without(codes, target);
    r := WithNames(m.value, codes);
  }

  /** A concrete source listed for a target makes a valid one-way pair. */
  lemma ValidSourceIsOneWayValid(m: ModelInfo, target: string, source: string)
    requires source != Wildcard && source != "" && target != ""
    requires IsValidSource(m, target, source)
    ensures IsOneWayValid(Some(m), source, target)
  {
  }

  // ---------------------------------------------------------------- the lists offered for a model

  ghost predicate InPairFields(m: ModelInfo, c: string) {
    exists k :: 0 <= k < |m.twoWayTranslationPairs| &&
      (SplitPair(m.twoWayTranslationPairs[k]).0 == c || SplitPair(m.twoWayTranslationPairs[k]).1 == Some(c))
  }

  /**
   * `getAvailableTargetLanguagesForModel`, with the missing second field of a
   * pair without a colon skipped (see `AvailableTargetEntriesAsWritten`).
   */
  method GetAvailableTargetLanguagesForModel(m: Option<ModelInfo>) returns (r: seq<Language>)
    ensures NoDup(Codes(r))
    ensures forall c :: c in Codes(r) <==> m.Some? && (IsRuleTarget(m.value, c) || InPairFields(m.value, c))
    ensures m.Some? ==> Named(m.value, r)
  {
    if m.None? {
      return [];
    }
    var codes := RuleTargetCodes(m.value.translationTargets);
    codes := AddPairFields(m.value.twoWayTranslationPairs, codes);
    r := WithNames(m.value, codes);
  }

  /** Both fields of every pair added to `codes`, a missing second field skipped. */
  method AddPairFields(pairs: seq<string>, codes: seq<string>) returns (r: seq<string>)
    requires NoDup(codes)
    ensures NoDup(r)
    ensures forall c :: c in r <==> (c in codes ||
      exists k :: 0 <= k < |pairs| && (SplitPair(pairs[k]).0 == c || SplitPair(pairs[k]).1 == Some(c)))
  {
    r := codes;
    var i := 0;
    while i < |pairs|
      invariant 0 <= i <= |pairs|
      invariant NoDup(r)
      invariant forall c :: c in r <==> (c in codes ||
        exists k :: 0 <= k < i && (SplitPair(pairs[k]).0 == c || SplitPair(pairs[k]).1 == Some(c)))
    {
      var fields := SplitPair(pairs[i]);
      r := SetAdd(r, fields.0);
      if fields.1.Some? {
        r := SetAdd(r, fields.1.value);
      }
      i := i + 1;
    }
  }

  ghost predicate IsAvailableSource(m: ModelInfo, target: string, kind: TranslationType, c: string) {
    match kind
    case OneWay =>
      (match RuleIndexForTarget(m.translationTargets, target)
       case None => false
       case Some(i) =>
         var sources := m.translationTargets[i].sourceLanguages;
         c in sources || (Wildcard in sources && IsModelLanguage(m, c)))
    case TwoWay =>
      exists k :: 0 <= k < |m.twoWayTranslationPairs| &&
        var fields := SplitPair(m.twoWayTranslationPairs[k]);
        (fields.0 == target && fields.1 == Some(c)) || (fields.1 == Some(target) && fields.0 == c)
  }

  /**
   * `getAvailableSourceLanguagesForModel` (its result is not sorted), with the
   * missing second field of a pair without a colon skipped (see
   * `AvailableSourceEntriesAsWritten`).
   */
  method GetAvailableSourceLanguagesForModel(m: Option<ModelInfo>, target: string, kind: TranslationType)
    returns (r: seq<Language>)
    ensures NoDup(Codes(r))
    ensures forall c :: c in Codes(r) <==> m.Some? && target != "" && IsAvailableSource(m.value, target, kind, c)
    ensures m.Some? ==> Named(m.value, r)
  {
    if m.None? || target == "" {
      return [];
    }
    var codes: seq<string> := [];
    if kind == OneWay {
      var rule := RuleIndexForTarget(m.value.translationTargets, target);
      if rule.Some? {
        var sources := m.value.translationTargets[rule.value].sourceLanguages;
        var j := 0;
        while j < |sources|
          invariant 0 <= j <= |sources|
          invariant NoDup(codes)
          invariant forall c :: c in codes <==> c in sources[..j]
        {
          codes := SetAdd(codes, sources[j]);
          assert sources[..j + 1] == sources[..j] + [sources[j]];
          j := j + 1;
        }
        assert sources[..j] == sources;
        if Wildcard in sources {
          codes := AddModelLanguages(m.value, codes);
        }
      }
    } else {
      var pairs := m.value.twoWayTranslationPairs;
      var i := 0;
      while i < |pairs|
        invariant 0 <= i <= |pairs|
        invariant NoDup(codes)
        invariant forall c :: c in codes <==> exists k :: (0 <= k < i &&
          var fields := SplitPair(pairs[k]);
          (fields.0 == target && fields.1 == Some(c)) || (fields.1 == Some(target) && fields.0 == c))
      {
        var fields := SplitPair(pairs[i]);
        if fields.0 == target && fields.1.Some? {
          codes := SetAdd(codes, fields.1.value);
        }
        if fields.1 == Some(target) {
          codes := SetAdd(codes, fields.0);
        }
        i := i + 1;
      }
    }
    r := WithNames(m.value, codes);
  }

  /** In two-way mode the sources offered for `t` (other than `t` and `""`) are exactly its valid partners. */
  lemma TwoWaySourceIffValid(m: ModelInfo, t: string, c: string)
    requires t != "" && c != "" && c != t
    ensures IsAvailableSource(m, t, TwoWay, c) <==> IsTwoWayValid(Some(m), t, c)
  {
    var pairs := m.twoWayTranslationPairs;
    AnyPairMatchesExists(pairs, t, c);
    if IsTwoWayValid(Some(m), t, c) {
      var k :| 0 <= k < |pairs| && PairMatches(SplitPair(pairs[k]), t, c);
      assert (SplitPair(pairs[k]).0 == t && SplitPair(pairs[k]).1 == Some(c))
        || (SplitPair(pairs[k]).1 == Some(t) && SplitPair(pairs[k]).0 == c);
    }
  }

  // ---------------------------------------------------------------- the code as written, for pairs without a colon

  /** A pair string has no second field exactly when it has no colon. */
  lemma SplitPairSecondField(s: string)
    ensures SplitPair(s).1.None? <==> ':' !in s
  {
    if ':' in s {
      var k := IndexOf(s, ':').value;
      assert SplitOn(s, ':') == [s[..k]] + SplitOn(s[k + 1..], ':');
    }
  }

  /** `targetLangCodes` as written, `undefined` included (as `None`). */
  function AddTargetsAsWritten(acc: seq<Option<string>>, rules: seq<TranslationTargetRule>): seq<Option<string>>
    decreases |rules|
  {
    if rules == [] then acc else AddTargetsAsWritten(SetAdd(acc, Some(rules[0].targetLanguage)), rules[1..])
  }

  function AddPairFieldsAsWritten(acc: seq<Option<string>>, pairs: seq<string>): seq<Option<string>>
    decreases |pairs|
  {
    if pairs == [] then acc
    else
      var fields := SplitPair(pairs[0]);
      AddPairFieldsAsWritten(SetAdd(SetAdd(acc, Some(fields.0)), fields.1), pairs[1..])
  }

  /** The codes `getAvailableTargetLanguagesForModel` collects as written: `lang2` is added even when it is `undefined`. */
  function AvailableTargetEntriesAsWritten(m: ModelInfo): seq<Option<string>> {
    AddPairFieldsAsWritten(AddTargetsAsWritten([], m.translationTargets), m.twoWayTranslationPairs)
  }

  lemma {:induction false} AddTargetsAsWrittenDefined(acc: seq<Option<string>>, rules: seq<TranslationTargetRule>)
    ensures None in AddTargetsAsWritten(acc, rules) <==> None in acc
    decreases |rules|
  {
    if rules != [] {
      AddTargetsAsWrittenDefined(SetAdd(acc, Some(rules[0].targetLanguage)), rules[1..]);
    }
  }

  lemma {:induction false} AddPairFieldsAsWrittenUndefined(acc: seq<Option<string>>, pairs: seq<string>)
    ensures None in AddPairFieldsAsWritten(acc, pairs) <==> None in acc || exists k :: 0 <= k < |pairs| && ':' !in pairs[k]
    decreases |pairs|
  {
    if pairs != [] {
      var fields := SplitPair(pairs[0]);
      SplitPairSecondField(pairs[0]);
      AddPairFieldsAsWrittenUndefined(SetAdd(SetAdd(acc, Some(fields.0)), fields.1), pairs[1..]);
      if exists k :: 0 <= k < |pairs| && ':' !in pairs[k] {
        var k :| 0 <= k < |pairs| && ':' !in pairs[k];
        if k > 0 { assert pairs[1..][k - 1] == pairs[k]; }
      }
      if exists k :: 0 <= k < |pairs[1..]| && ':' !in pairs[1..][k] {
        var k :| 0 <= k < |pairs[1..]| && ':' !in pairs[1..][k];
        assert pairs[k + 1] == pairs[1..][k];
      }
    }
  }

  /** As written, the target list holds `undefined` exactly when some two-way pair has no colon. */
  lemma AvailableTargetsAsWrittenUndefined(m: ModelInfo)
    ensures None in AvailableTargetEntriesAsWritten(m) <==>
      exists k :: 0 <= k < |m.twoWayTranslationPairs| && ':' !in m.twoWayTranslationPairs[k]
  {
    AddTargetsAsWrittenDefined([], m.translationTargets);
    AddPairFieldsAsWrittenUndefined(AddTargetsAsWritten([], m.translationTargets), m.twoWayTranslationPairs);
  }

  /** With the single pair `"en"`, the target list as written holds `undefined`. */
  lemma UndefinedTargetExample(m: ModelInfo)
    requires m.twoWayTranslationPairs == ["en"]
    ensures None in AvailableTargetEntriesAsWritten(m)
  {
    AvailableTargetsAsWrittenUndefined(m);
    assert ':' !in m.twoWayTranslationPairs[0];
  }

  /** The source list of the two-way branch of `getAvailableSourceLanguagesForModel` as written. */
  function AvailableSourceEntriesAsWritten(acc: seq<Option<string>>, pairs: seq<string>, target: string): seq<Option<string>>
    decreases |pairs|
  {
    if pairs == [] then acc
    else
      var fields := SplitPair(pairs[0]);
      var afterFirst := if fields.0 == target then SetAdd(acc, fields.1) else acc;
      var afterSecond := if fields.1 == Some(target) then SetAdd(afterFirst, Some(fields.0)) else afterFirst;
      AvailableSourceEntriesAsWritten(afterSecond, pairs[1..], target)
  }

  /** As written, a pair equal to the target itself (no colon) puts `undefined` among its two-way sources. */
  lemma {:induction false} AvailableSourcesAsWrittenUndefined(acc: seq<Option<string>>, pairs: seq<string>, target: string)
    requires ':' !in target
    ensures None in AvailableSourceEntriesAsWritten(acc, pairs, target) <==> None in acc || target in pairs
    decreases |pairs|
  {
    if pairs != [] {
      var fields := SplitPair(pairs[0]);
      SplitPairSecondField(pairs[0]);
      var afterFirst := if fields.0 == target then SetAdd(acc, fields.1) else acc;
      var afterSecond := if fields.1 == Some(target) then SetAdd(afterFirst, Some(fields.0)) else afterFirst;
      AvailableSourcesAsWrittenUndefined(afterSecond, pairs[1..], target);
      assert pairs == [pairs[0]] + pairs[1..];
      if fields.1.None? {
        assert SplitOn(pairs[0], ':') == [pairs[0]];
      } else {
        var k := IndexOf(pairs[0], ':').value;
        assert SplitOn(pairs[0], ':') == [pairs[0][..k]] + SplitOn(pairs[0][k + 1..], ':');
        assert ':' in pairs[0];
      }
    }
  }

  /** With the single pair `"en"` and target `"en"`, the two-way source list as written holds `undefined`. */
  lemma UndefinedSourceExample()
    ensures None in AvailableSourceEntriesAsWritten([], ["en"], "en")
  {
    AvailableSourcesAsWrittenUndefined([], ["en"], "en");
  }
}
