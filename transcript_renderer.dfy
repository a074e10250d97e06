/**
 * The transcript view of one provider (frontend/src/components/transcript-renderer.tsx).
 *
 * `renderParts` walks the transcript parts and threads the previous part's
 * speaker, language and translation status through the walk; from them it
 * decides, for every part, whether a speaker header is drawn, whether a
 * language tag is shown, whether the tag starts a new line and whether
 * vertical spacing is added. The final parts are rendered first and the
 * non-final parts continue from the state the final parts left. React nodes
 * are abstracted to `Element` values.
 *
 * The source starts the walk with `undefined` for all three values and
 * stores `null` for a part without the value; both are `None` here. No
 * decision can tell them apart: a language tag needs a truthy language, a
 * line break needs a truthy previous language and spacing needs a previous
 * status of "translation".
 */
module TranscriptRenderer {
  import opened Collections
  import opened JsString

  /** A speaker id, `number | string` in the source. */
  datatype SpeakerId = Num(n: int) | Label(s: string)

  datatype TranscriptPart = TranscriptPart(
    text: string,
    speaker: Option<SpeakerId>,
    language: Option<string>,
    translationStatus: Option<string>,
    startMs: Option<nat>,
    endMs: Option<nat>)

  /** `s || null` for an optional string: the empty string counts as absent. */
  function Truthy(s: Option<string>): (r: Option<string>)
    ensures r.Some? <==> s.Some? && s.value != ""
    ensures r.Some? ==> r == s
  {
    if s.Some? && s.value != "" then s else None
  }

  /** `part.speaker || null`: speaker `0` and speaker `""` count as no speaker. */
  function SpeakerOf(p: TranscriptPart): (r: Option<SpeakerId>)
    ensures r.Some? <==> p.speaker.Some? && p.speaker.value != Num(0) && p.speaker.value != Label("")
    ensures r.Some? ==> r == p.speaker
  {
    match p.speaker
    case Some(Num(n)) => if n == 0 then None else p.speaker
    case Some(Label(s)) => if s == "" then None else p.speaker
    case None => None
  }

  function LanguageOf(p: TranscriptPart): Option<string> {
    Truthy(p.language)
  }

  function StatusOf(p: TranscriptPart): Option<string> {
    Truthy(p.translationStatus)
  }

  /** The three values threaded through the walk. */
  datatype FoldState = FoldState(
    speaker: Option<SpeakerId>,
    language: Option<string>,
    translationStatus: Option<string>)

  const Initial := FoldState(None, None, None)

  /** What a part leaves behind for the next one. */
  function StateAfter(p: TranscriptPart): FoldState {
    FoldState(SpeakerOf(p), LanguageOf(p), StatusOf(p))
  }

  /** A rendered node: a speaker header, or a `WordToken` with its props. */
  datatype Element =
    | Header(speaker: SpeakerId)
    | Token(part: TranscriptPart, text: string, displayedLanguage: Option<string>, onNewLine: bool, addSpacing: bool)

  /** `displaySpeakerName`: the part has a truthy speaker that differs from the previous one. */
  predicate DrawsHeader(st: FoldState, p: TranscriptPart) {
    SpeakerOf(p).Some? && SpeakerOf(p) != st.speaker
  }

  /** The `WordToken` props `renderParts` computes for one part. */
  function TokenFor(st: FoldState, p: TranscriptPart): (t: Element)
    ensures t.Token? && t.part == p
    // the text is left-trimmed exactly when a header was drawn
    ensures t.text == if DrawsHeader(st, p) then TrimStart(p.text) else p.text
    // a tag is shown iff the language is truthy and changed; a new speaker alone shows none
    ensures t.displayedLanguage.Some? <==> LanguageOf(p).Some? && LanguageOf(p) != st.language
    ensures t.displayedLanguage.Some? ==> t.displayedLanguage == p.language
    ensures t.onNewLine <==> LanguageOf(p) != st.language && !DrawsHeader(st, p) && st.language.Some?
    ensures t.addSpacing <==>
      st.translationStatus == Some("translation") && StatusOf(p) != st.translationStatus && !DrawsHeader(st, p)
  {
    var partSpeaker := SpeakerOf(p);
    var partLanguage := LanguageOf(p);
    var partStatus := StatusOf(p);
    var displaySpeakerName := partSpeaker.Some? && partSpeaker != st.speaker;
    var displayLanguageTag := partLanguage.Some? && (displaySpeakerName || partLanguage != st.language);
    Token(
      p,
      if displaySpeakerName then TrimStart(p.text) else p.text,
      if partLanguage != st.language && displayLanguageTag then partLanguage else None,
      partLanguage != st.language && !displaySpeakerName && st.language.Some?,
      partStatus != st.translationStatus && st.translationStatus == Some("translation") && !displaySpeakerName)
  }

  /** One iteration of the walk: the header if one is due, the token, and the state the part leaves. */
  function Step(st: FoldState, p: TranscriptPart): (seq<Element>, FoldState) {
    var header := if DrawsHeader(st, p) then [Header(SpeakerOf(p).value)] else [];
    (header + [TokenFor(st, p)], StateAfter(p))
  }

  /** A step draws a header exactly when one is due, then the token, and leaves the part's state. */
  lemma StepShape(st: FoldState, p: TranscriptPart)
    ensures Step(st, p).0 == if DrawsHeader(st, p) then [Header(SpeakerOf(p).value), TokenFor(st, p)] else [TokenFor(st, p)]
    ensures Step(st, p).1 == StateAfter(p)
  {
    var token := TokenFor(st, p);
    if DrawsHeader(st, p) {
      assert [Header(SpeakerOf(p).value)] + [token] == [Header(SpeakerOf(p).value), token];
    } else {
      assert [] + [token] == [token];
    }
  }

  /** The elements of a walk over `parts` started in `st`, and the state it ends in. */
  function Fold(st: FoldState, parts: seq<TranscriptPart>): (seq<Element>, FoldState)
    decreases |parts|
  {
    if parts == [] then ([], st)
    else
      var first := Step(st, parts[0]);
      var rest := Fold(first.1, parts[1..]);
      (first.0 + rest.0, rest.1)
  }

  /** Walking `a + b` is walking `a` and then walking `b` from where `a` ended. */
  lemma {:induction false} FoldAppend(st: FoldState, a: seq<TranscriptPart>, b: seq<TranscriptPart>)
    ensures Fold(st, a + b) == (Fold(st, a).0 + Fold(Fold(st, a).1, b).0, Fold(Fold(st, a).1, b).1)
    decreases |a|
  {
    if a == [] {
      assert a + b == b;
      assert Fold(st, a) == ([], st);
      assert [] + Fold(st, b).0 == Fold(st, b).0;
    } else {
      var first := Step(st, a[0]);
      assert (a + b)[0] == a[0] && (a + b)[1..] == a[1..] + b;
      FoldAppend(first.1, a[1..], b);
      var mid := Fold(first.1, a[1..]);
      var tail := Fold(mid.1, b);
      FoldCons(st, a + b);
      FoldCons(st, a);
      assert first.0 + (mid.0 + tail.0) == (first.0 + mid.0) + tail.0;
    }
  }

  /** One step of a non-empty walk. */
  lemma FoldCons(st: FoldState, parts: seq<TranscriptPart>)
    requires parts != []
    ensures Fold(st, parts) == (Step(st, parts[0]).0 + Fold(Step(st, parts[0]).1, parts[1..]).0, Fold(Step(st, parts[0]).1, parts[1..]).1)
  {
  }

  /** Walking one more part appends what that part produces. */
  lemma FoldSnoc(st: FoldState, a: seq<TranscriptPart>, x: TranscriptPart)
    ensures var before := Fold(st, a);
      Fold(st, a + [x]) == (before.0 + Step(before.1, x).0, Step(before.1, x).1)
  {
    FoldAppend(st, a, [x]);
    var step := Step(Fold(st, a).1, x);
    assert [x][1..] == [];
    assert Fold(step.1, []) == ([], step.1);
    assert Fold(Fold(st, a).1, [x]) == (step.0 + [], step.1);
    assert step.0 + [] == step.0;
  }

  /** After a non-empty walk the state is the one the last part leaves, whatever came before. */
  lemma {:induction false} FoldLastState(st: FoldState, parts: seq<TranscriptPart>)
    requires parts != []
    ensures Fold(st, parts).1 == StateAfter(parts[|parts| - 1])
    decreases |parts|
  {
    if |parts| > 1 {
      FoldLastState(Step(st, parts[0]).1, parts[1..]);
    }
  }

  /** `renderParts`: the `forEach` loop that pushes elements and reassigns the three values. */
  method RenderParts(parts: seq<TranscriptPart>, st: FoldState) returns (elements: seq<Element>, last: FoldState)
    ensures (elements, last) == Fold(st, parts)
  {
    elements, last := [], st;
    var i := 0;
    while i < |parts|
      invariant 0 <= i <= |parts|
      invariant (elements, last) == Fold(st, parts[..i])
    {
      var produced := Step(last, parts[i]);
      FoldSnoc(st, parts[..i], parts[i]);
      assert parts[..i + 1] == parts[..i] + [parts[i]];
      elements := elements + produced.0;
      last := produced.1;
      i := i + 1;
    }
    assert parts[..i] == parts;
  }

  /** Number of speaker headers among `es`. */
  function HeaderCount(es: seq<Element>): nat {
    if es == [] then 0 else (if es[0].Header? then 1 else 0) + HeaderCount(es[1..])
  }

  /** The `outputData` of one provider as the renderer sees it. */
  datatype OutputData = OutputData(
    statusMessage: Option<string>,
    finalParts: seq<TranscriptPart>,
    nonFinalParts: seq<TranscriptPart>,
    error: Option<string>)

  const MaxErrorLength: nat := 150

  /** `ErrorMessage`: a short error in full, a long one as a preview with the full text behind a dialog. */
  datatype ErrorView = Verbatim(text: string) | Truncated(preview: string, full: string)

  function ErrorMessage(e: string): (v: ErrorView)
    ensures |e| <= MaxErrorLength <==> v.Verbatim?
    ensures v.Verbatim? ==> v.text == e
    ensures v.Truncated? ==> v.full == e && v.preview == e[..MaxErrorLength] + "..."
    ensures v.Truncated? ==> |v.preview| == MaxErrorLength + 3 && e[..MaxErrorLength] <= v.preview
  {
    if |e| <= MaxErrorLength then Verbatim(e) else Truncated(e[..MaxErrorLength] + "...", e)
  }

  /** What the transcript panel shows. */
  datatype Content =
    | AppErrorContent(view: ErrorView)
    | StatusContent(message: string)
    | NoOutputYet
    | PartsContent(finalElements: seq<Element>, nonFinalElements: seq<Element>)

  /** The content-priority chain of `TranscriptRenderer` (the provider's own error is not shown). */
  function ContentOf(output: OutputData, appError: Option<string>): (c: Content)
    ensures Truthy(appError).Some? ==> c == AppErrorContent(ErrorMessage(appError.value))
    ensures Truthy(appError).None? && Truthy(output.statusMessage).Some? ==> c == StatusContent(output.statusMessage.value)
    ensures c.NoOutputYet? <==>
      Truthy(appError).None? && Truthy(output.statusMessage).None?
      && output.finalParts == [] && output.nonFinalParts == [] && Truthy(output.error).None?
    ensures Truthy(appError).None? && Truthy(output.statusMessage).None? && !c.NoOutputYet? ==> c.PartsContent?
    ensures c.PartsContent? ==> c.finalElements == Fold(Initial, output.finalParts).0
    ensures c.PartsContent? ==>
      c.finalElements + c.nonFinalElements == Fold(Initial, output.finalParts + output.nonFinalParts).0
  {
    if Truthy(appError).Some? then AppErrorContent(ErrorMessage(appError.value))
    else if Truthy(output.statusMessage).Some? then StatusContent(output.statusMessage.value)
    else if output.finalParts == [] && output.nonFinalParts == [] && Truthy(output.error).None? then NoOutputYet
    else
      var (finalElements, afterFinal) := Fold(Initial, output.finalParts);
      var nonFinalElements := if output.nonFinalParts != [] then Fold(afterFinal, output.nonFinalParts).0 else [];
      FoldAppend(Initial, output.finalParts, output.nonFinalParts);
      PartsContent(finalElements, nonFinalElements)
  }

  /** `TranscriptRenderer`: chooses the content and renders the two part lists with `RenderParts`. */
  method RenderTranscript(output: OutputData, appError: Option<string>) returns (c: Content)
    ensures c == ContentOf(output, appError)
  {
    if Truthy(appError).Some? {
      c := AppErrorContent(ErrorMessage(appError.value));
    } else if Truthy(output.statusMessage).Some? {
      c := StatusContent(output.statusMessage.value);
    } else if output.finalParts == [] && output.nonFinalParts == [] && Truthy(output.error).None? {
      c := NoOutputYet;
    } else {
      var finalElements, afterFinal := RenderParts(output.finalParts, Initial);
      var nonFinalElements := [];
      if output.nonFinalParts != [] {
        var last;
        nonFinalElements, last := RenderParts(output.nonFinalParts, afterFinal);
      }
      c := PartsContent(finalElements, nonFinalElements);
    }
  }

  /** `formatTime` for a non-negative whole number of milliseconds: `MM:SS.mmm`. */
  function FormatTime(ms: nat): string {
    var totalSeconds := ms / 1000;
    var minutes := totalSeconds / 60;
    var remainingSeconds := totalSeconds % 60;
    var remainingMs := ms % 1000;
    PadStart(NatToString(minutes), 2, '0') + ":" + PadStart(NatToString(remainingSeconds), 2, '0')
      + "." + PadStart(NatToString(remainingMs), 3, '0')
  }

  function Pow10(k: nat): nat {
    if k == 0 then 1 else 10 * Pow10(k - 1)
  }

  /** A number below `10^k` has at most `k` digits. */
  lemma {:induction false} NatToStringLength(n: nat, k: nat)
    requires 1 <= k && n < Pow10(k)
    ensures |NatToString(n)| <= k
  {
    if n >= 10 {
      assert k > 1;
      NatToStringLength(n / 10, k - 1);
    }
  }

  /**
   * `r` reads as `MM:SS.mmm`: a minute field of at least two digits, two
   * second digits and three millisecond digits, denoting the three numbers.
   */
  predicate ReadsAsTime(r: string, minutes: nat, seconds: nat, millis: nat) {
    && |r| >= 9 && r[|r| - 7] == ':' && r[|r| - 4] == '.'
    && IsDigits(r[..|r| - 7]) && IsDigits(r[|r| - 6..|r| - 4]) && IsDigits(r[|r| - 3..])
    && DecimalValue(r[..|r| - 7]) == minutes
    && DecimalValue(r[|r| - 6..|r| - 4]) == seconds
    && DecimalValue(r[|r| - 3..]) == millis
  }

  /** Three numerals of the right widths, joined by `:` and `.`, read as their values. */
  lemma TimeLayout(m: string, s: string, f: string)
    requires |m| >= 2 && |s| == 2 && |f| == 3
    requires IsDigits(m) && IsDigits(s) && IsDigits(f)
    ensures ReadsAsTime(m + ":" + s + "." + f, DecimalValue(m), DecimalValue(s), DecimalValue(f))
  {
    TimeSlices(m, s, f);
  }

  /** Where the pieces of `m:ss.fff` sit, counted from the end. */
  lemma TimeSlices(m: string, s: string, f: string)
    requires |s| == 2 && |f| == 3
    ensures var r := m + ":" + s + "." + f;
      && |r| == |m| + 7 && r[|r| - 7] == ':' && r[|r| - 4] == '.'
      && r[..|r| - 7] == m && r[|r| - 6..|r| - 4] == s && r[|r| - 3..] == f
  {
    var r := m + ":" + s + "." + f;
    var head := m + ":" + s;
    assert r == head + ("." + f);
    assert r[..|head|] == head;
    assert head[..|m|] == m;
    assert r[..|m|] == m;
    assert r[|m| + 1..|m| + 3] == head[|m| + 1..] == s;
    assert r == (head + ".") + f;
    assert r[|r| - 3..] == f;
  }

  /** Minutes, seconds and milliseconds recombine to the input. */
  lemma TimeArithmetic(ms: nat)
    ensures ms / 1000 / 60 == ms / 60000
    ensures ms == 60000 * (ms / 60000) + 1000 * (ms / 1000 % 60) + ms % 1000
  {
    var t := ms / 1000;
    assert ms == 1000 * t + ms % 1000;
    assert t == 60 * (t / 60) + t % 60;
  }

  /**
   * `formatTime` reads back as its minutes `ms / 60000`, its seconds below 60
   * and its milliseconds `ms % 1000`, which recombine to the input.
   */
  lemma FormatTimeFields(ms: nat)
    ensures ReadsAsTime(FormatTime(ms), ms / 60000, ms / 1000 % 60, ms % 1000)
    ensures ms / 1000 % 60 < 60
    ensures ms == 60000 * (ms / 60000) + 1000 * (ms / 1000 % 60) + ms % 1000
  {
    TimeArithmetic(ms);
    var minutes, seconds, millis := ms / 1000 / 60, ms / 1000 % 60, ms % 1000;
    NatToStringLength(seconds, 2);
    NatToStringLength(millis, 3);
    var m := PadStart(NatToString(minutes), 2, '0');
    var s := PadStart(NatToString(seconds), 2, '0');
    var f := PadStart(NatToString(millis), 3, '0');
    PaddedNumeralValue(minutes, 2);
    PaddedNumeralValue(seconds, 2);
    PaddedNumeralValue(millis, 3);
    TimeLayout(m, s, f);
    assert FormatTime(ms) == m + ":" + s + "." + f;
  }

  const EndSentinel := "<end>"

  /** `part.text.trim() === "<end>"`. */
  predicate IsEndMarker(text: string) {
    Trim(text) == EndSentinel
  }

  /** The sentinel is recognised whatever whitespace surrounds it. */
  lemma EndMarkerPadded(w1: string, w2: string)
    requires AllWhitespace(w1) && AllWhitespace(w2)
    ensures IsEndMarker(w1 + EndSentinel + w2)
  {
    TrimOfPadded(w1, EndSentinel, w2);
  }

  /** What `WordToken` draws for one token. */
  datatype TokenView =
    | EndMarkerView(tooltip: seq<string>)
    | WordView(lineBreak: bool, spacing: bool, languageTag: Option<string>, text: string, tooltip: seq<string>)

  /** The tooltip lines of a word (the confidence line is not modelled). */
  function WordTooltip(p: TranscriptPart): seq<string> {
    (if p.startMs.Some? then ["Start: " + FormatTime(p.startMs.value)] else [])
      + (if p.endMs.Some? then ["End: " + FormatTime(p.endMs.value)] else [])
  }

  function WordToken(e: Element): (v: TokenView)
    requires e.Token?
    // the sentinel is drawn as an endpoint marker, whatever else the token says
    ensures IsEndMarker(e.part.text) <==> v.EndMarkerView?
    ensures v.EndMarkerView? ==>
      v.tooltip == if e.part.startMs.Some? then ["Endpoint detected at: " + FormatTime(e.part.startMs.value)] else []
    // the line break and the spacing are drawn only together with a language tag
    ensures v.WordView? ==> v.text == e.text && v.languageTag == Truthy(e.displayedLanguage)
    ensures v.WordView? ==> (v.lineBreak <==> v.languageTag.Some? && e.onNewLine)
    ensures v.WordView? ==> (v.spacing <==> v.languageTag.Some? && e.addSpacing)
  {
    if IsEndMarker(e.part.text) then
      EndMarkerView(if e.part.startMs.Some? then ["Endpoint detected at: " + FormatTime(e.part.startMs.value)] else [])
    else
      var tag := Truthy(e.displayedLanguage);
      WordView(tag.Some? && e.onNewLine, tag.Some? && e.addSpacing, tag, e.text, WordTooltip(e.part))
  }

  /** A walk over three parts is the three steps one after the other. */
  lemma FoldThree(st: FoldState, p1: TranscriptPart, p2: TranscriptPart, p3: TranscriptPart)
    ensures var s1 := Step(st, p1); var s2 := Step(s1.1, p2); var s3 := Step(s2.1, p3);
      Fold(st, [p1, p2, p3]) == (s1.0 + s2.0 + s3.0, s3.1)
  {
    var s1 := Step(st, p1);
    FoldSnoc(st, [], p1);
    assert [] + [p1] == [p1];
    assert Fold(st, []) == ([], st);
    assert [] + s1.0 == s1.0;
    FoldSnoc(st, [p1], p2);
    assert [p1] + [p2] == [p1, p2];
    FoldSnoc(st, [p1, p2], p3);
    assert [p1, p2] + [p3] == [p1, p2, p3];
  }

  /** A list of tokens holds no header. */
  lemma {:induction false} NoHeaders(es: seq<Element>)
    requires forall i :: 0 <= i < |es| ==> es[i].Token?
    ensures HeaderCount(es) == 0
  {
    if es != [] {
      NoHeaders(es[1..]);
    }
  }

  /**
   * Two final parts of speaker 1 followed by the end marker draw exactly one
   * header, for speaker 1 (the texts do not matter).
   */
  lemma OneHeaderForOneSpeaker(text1: string, text2: string)
    ensures var parts := [
        TranscriptPart(text1, Some(Num(1)), None, None, None, None),
        TranscriptPart(text2, Some(Num(1)), None, None, None, None),
        TranscriptPart(EndSentinel, None, None, None, None, None)];
      var es := Fold(Initial, parts).0;
      HeaderCount(es) == 1 && es[0] == Header(Num(1))
  {
    var p1 := TranscriptPart(text1, Some(Num(1)), None, None, None, None);
    var p2 := TranscriptPart(text2, Some(Num(1)), None, None, None, None);
    var p3 := TranscriptPart(EndSentinel, None, None, None, None, None);
    var after1 := FoldState(Some(Num(1)), None, None);
    StepShape(Initial, p1);
    StepShape(after1, p2);
    StepShape(after1, p3);
    FoldThree(Initial, p1, p2, p3);
    var t1, t2, t3 := TokenFor(Initial, p1), TokenFor(after1, p2), TokenFor(after1, p3);
    var es := [Header(Num(1)), t1] + [t2] + [t3];
    assert es == [Header(Num(1)), t1, t2, t3];
    assert es[1..] == [t1, t2, t3];
    NoHeaders(es[1..]);
  }

  /** A change of language under the same speaker shows a tag on a new line and draws no header. */
  lemma LanguageChangeSameSpeaker(text1: string, text2: string)
    ensures var p1 := TranscriptPart(text1, Some(Num(1)), Some("en"), None, None, None);
      var p2 := TranscriptPart(text2, Some(Num(1)), Some("es"), None, None, None);
      var es := Step(Step(Initial, p1).1, p2).0;
      es == [TokenFor(StateAfter(p1), p2)] && es[0].displayedLanguage == Some("es") && es[0].onNewLine
  {
  }
}
