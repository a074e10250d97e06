/**
 * The derived values of the provider-feature context
 * (frontend/src/contexts/feature-context.tsx): the providers offered for
 * comparison, one provider's feature entries without the bookkeeping keys,
 * the feature set and the plain-text feature table.
 *
 * A provider's features are a JSON object; `Object.entries` hands its
 * entries back in order, so an object is a sequence of key/value pairs.
 * `SONIOX_PROVIDER` and `snakeCaseToTitle` are defined outside the shown
 * files and are parameters here.
 */
module FeatureContext {
  import opened Collections
  import opened JsString
  import opened BaseProvider

  /** A feature value: a flag, a feature description, or a string (`name`, `model`). */
  datatype FeatureValue = BoolValue(flag: bool) | InfoValue(info: FeatureInfo) | StringValue(text: string)

  type Entry = (string, FeatureValue)

  /** `ALL_PROVIDERS_LIST` (frontend/src/lib/provider-features.ts). */
  const AllProviders: seq<string> := ["openai", "deepgram", "azure", "google", "speechmatics", "assembly"]

  /** `IGNORED_FEATURES` followed by `"name"` and `"model"`. */
  const HiddenKeys: seq<string> := ["confidence_scores", "timestamps", "name", "model"]

  const CheckMark := "\U{2705}"
  const CrossMark := "\U{274C}"
  const WarningSign := "\U{26A0}\U{FE0F}"

  /** `availableComparisonProviders`: nothing before the features load, then every provider but Soniox, in order. */
  function AvailableComparisonProviders(loaded: Option<map<string, seq<Entry>>>, soniox: string): (r: seq<string>)
    ensures loaded.None? ==> r == []
    ensures forall p :: p in r <==> loaded.Some? && p in AllProviders && p != soniox
    ensures loaded.Some? ==> r == Without(AllProviders, soniox)
  {
    if loaded.Some? then Without(AllProviders, soniox) else []
  }

  /** With Soniox outside the list, every listed provider is offered, in list order. */
  lemma AvailableWhenSonioxUnlisted(loaded: map<string, seq<Entry>>, soniox: string)
    requires soniox !in AllProviders
    ensures AvailableComparisonProviders(Some(loaded), soniox) == AllProviders
  {
    WithoutAbsent(AllProviders, soniox);
  }

  /** The entries whose key is not hidden, in their order. */
  function Visible(entries: seq<Entry>): (r: seq<Entry>)
    ensures |r| <= |entries|
    ensures forall e :: e in r <==> e in entries && e.0 !in HiddenKeys
  {
    if entries == [] then []
    else if entries[0].0 in HiddenKeys then Visible(entries[1..])
    else [entries[0]] + Visible(entries[1..])
  }

  /** The filter keeps relative order: it distributes over concatenation. */
  lemma {:induction false} VisibleAppend(a: seq<Entry>, b: seq<Entry>)
    ensures Visible(a + b) == Visible(a) + Visible(b)
  {
    if a == [] {
      assert a + b == b;
    } else {
      assert (a + b)[1..] == a[1..] + b;
      VisibleAppend(a[1..], b);
    }
  }

  /** `getProviderFeatures(p)`: the provider's entries without the hidden keys, none when unloaded or unknown. */
  function ProviderFeatures(loaded: Option<map<string, seq<Entry>>>, provider: string): (r: seq<Entry>)
    ensures loaded.None? || provider !in loaded.value ==> r == []
    ensures forall e :: e in r <==> loaded.Some? && provider in loaded.value && e in loaded.value[provider] && e.0 !in HiddenKeys
    ensures loaded.Some? && provider in loaded.value ==> r == Visible(loaded.value[provider])
  {
    if loaded.Some? && provider in loaded.value then Visible(loaded.value[provider]) else []
  }

  /** The keys of the entries, in order (`Object.keys`). */
  function Keys(entries: seq<Entry>): (r: seq<string>)
    ensures |r| == |entries|
    ensures forall i :: 0 <= i < |entries| ==> r[i] == entries[i].0
  {
    seq(|entries|, i requires 0 <= i < |entries| => entries[i].0)
  }

  /** `getFeatureSet()`: the visible keys of Soniox's features, in entry order. */
  function FeatureSet(loaded: Option<map<string, seq<Entry>>>, soniox: string): (r: seq<string>)
    ensures loaded.None? || soniox !in loaded.value ==> r == []
    ensures |r| == |ProviderFeatures(loaded, soniox)|
    ensures forall i :: 0 <= i < |r| ==> r[i] == ProviderFeatures(loaded, soniox)[i].0
    ensures forall k :: k in r ==> k !in HiddenKeys
    ensures loaded.Some? && soniox in loaded.value ==>
      forall k :: k in r <==> k !in HiddenKeys && exists i :: 0 <= i < |loaded.value[soniox]| && loaded.value[soniox][i].0 == k
  {
    var es := ProviderFeatures(loaded, soniox);
    var r := Keys(es);
    assert forall k :: k in r ==> exists e :: e in es && e.0 == k;
    r
  }

  /** `getStateIcon`. */
  function StateIcon(state: FeatureState): string {
    match state
    case Supported => CheckMark
    case Unsupported => CrossMark
    case Partial => WarningSign
  }

  /** The icon that starts an entry's line. */
  function Icon(v: FeatureValue): string
    requires !v.StringValue?
  {
    if v.BoolValue? then (if v.flag then CheckMark else CrossMark) else StateIcon(v.info.state)
  }

  /** A line shows a check mark exactly for a true flag or a supported feature, a cross exactly for a false flag or an unsupported one. */
  lemma IconMeaning(v: FeatureValue)
    requires !v.StringValue?
    ensures Icon(v) == CheckMark <==> v == BoolValue(true) || (v.InfoValue? && v.info.state == Supported)
    ensures Icon(v) == CrossMark <==> v == BoolValue(false) || (v.InfoValue? && v.info.state == Unsupported)
    ensures Icon(v) == WarningSign <==> v.InfoValue? && v.info.state == Partial
  {
    assert CheckMark[0] != CrossMark[0] && CheckMark[0] != WarningSign[0] && CrossMark[0] != WarningSign[0];
  }

  /** One line of the table: a flag keeps its raw key and a colon, a feature description shows the title of its key. */
  function Line(e: Entry, titleOf: string -> string): (r: string)
    requires !e.1.StringValue?
    ensures |r| > |Icon(e.1)| && r[..|Icon(e.1)| + 1] == Icon(e.1) + " "
    ensures e.1.BoolValue? ==> r[|Icon(e.1)| + 1..] == e.0 + ":"
    ensures e.1.InfoValue? ==> r[|Icon(e.1)| + 1..] == titleOf(e.0)
    ensures '\n' !in e.0 && '\n' !in titleOf(e.0) ==> '\n' !in r
  {
    if e.1.BoolValue? then Icon(e.1) + " " + e.0 + ":" else Icon(e.1) + " " + titleOf(e.0)
  }

  /** The entries whose value is not a string, in order. */
  function NonString(entries: seq<Entry>): (r: seq<Entry>)
    ensures |r| <= |entries|
    ensures forall e :: e in r <==> e in entries && !e.1.StringValue?
  {
    if entries == [] then []
    else if entries[0].1.StringValue? then NonString(entries[1..])
    else [entries[0]] + NonString(entries[1..])
  }

  lemma {:induction false} NonStringAppend(a: seq<Entry>, b: seq<Entry>)
    ensures NonString(a + b) == NonString(a) + NonString(b)
  {
    if a == [] {
      assert a + b == b;
    } else {
      assert (a + b)[1..] == a[1..] + b;
      NonStringAppend(a[1..], b);
    }
  }

  /** The lines of the table, one per non-string entry, in entry order. */
  function TableLines(entries: seq<Entry>, titleOf: string -> string): (r: seq<string>)
    ensures |r| == |NonString(entries)|
    ensures forall i :: 0 <= i < |r| ==> r[i] == Line(NonString(entries)[i], titleOf)
  {
    var kept := NonString(entries);
    seq(|kept|, i requires 0 <= i < |kept| => Line(kept[i], titleOf))
  }

  /** `getProviderFeaturesTextTable(p)`. */
  function TextTable(loaded: Option<map<string, seq<Entry>>>, provider: string, titleOf: string -> string): string {
    Join(TableLines(ProviderFeatures(loaded, provider), titleOf), "\n")
  }

  /** No key and no title holds a line break. */
  predicate SingleLineKeys(entries: seq<Entry>, titleOf: string -> string) {
    forall e :: e in entries ==> '\n' !in e.0 && '\n' !in titleOf(e.0)
  }

  /** Splitting the table at line breaks gives back exactly its lines, one per visible non-string entry. */
  lemma TextTableSplits(loaded: Option<map<string, seq<Entry>>>, provider: string, titleOf: string -> string)
    requires SingleLineKeys(ProviderFeatures(loaded, provider), titleOf)
    requires NonString(ProviderFeatures(loaded, provider)) != []
    ensures SplitOn(TextTable(loaded, provider, titleOf), '\n') == TableLines(ProviderFeatures(loaded, provider), titleOf)
  {
    var es := ProviderFeatures(loaded, provider);
    var lines := TableLines(es, titleOf);
    forall i | 0 <= i < |lines| ensures '\n' !in lines[i] {
      assert NonString(es)[i] in NonString(es);
    }
    SplitJoin(lines, '\n');
  }

  /** A string-valued entry adds no line; any other adds exactly its own line at the end. */
  lemma TableLinesSnoc(entries: seq<Entry>, e: Entry, titleOf: string -> string)
    ensures e.1.StringValue? ==> TableLines(entries + [e], titleOf) == TableLines(entries, titleOf)
    ensures !e.1.StringValue? ==> TableLines(entries + [e], titleOf) == TableLines(entries, titleOf) + [Line(e, titleOf)]
  {
    NonStringAppend(entries, [e]);
    assert NonString([e]) == if e.1.StringValue? then [] else [e] by {
      assert [e][1..] == [];
    }
  }
}
