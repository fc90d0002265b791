/**
 * `_shared/gemini.ts` without the network: model selection, the request payloads the three calls
 * send, and what they extract from a response body. The body is the parsed JSON the generation
 * service answers, as a record whose missing members are `None`; the nested `content` and
 * `groundingMetadata` objects of a candidate are folded into the candidate.
 */
module Gemini {
  import opened Outcome
  import opened Text
  import opened Json
  import opened Types
  import opened Config

  // ---- request shaping ----

  /** One `{ role, parts: [{ text }] }` entry of `contents`. */
  datatype Content = Content(role: string, text: string)

  function RoleName(role: Role): (r: string)
    ensures role == AssistantRole ==> r == "model"
    ensures role == UserRole ==> r == "user"
  {
    match role
    case AssistantRole => "model"
    case UserRole => "user"
  }

  /** The history items that are not blank after trimming, with their roles mapped and text trimmed. */
  function HistoryContents(items: seq<ChatHistoryItem>): (r: seq<Content>)
    ensures |r| <= |items|
    ensures forall i :: 0 <= i < |r| ==> r[i].text != "" && (r[i].role == "model" || r[i].role == "user")
  {
    if items == [] then []
    else
      var head := items[0];
      (if Trim(head.content) == "" then [] else [Content(RoleName(head.role), Trim(head.content))])
      + HistoryContents(items[1..])
  }

  /** The turns the last 8 history items contribute (the window is taken before blank ones are dropped). */
  function HistoryWindow(history: seq<ChatHistoryItem>): (r: seq<Content>)
    ensures |r| <= 8
    ensures forall i :: 0 <= i < |r| ==> r[i].text != ""
  {
    var w := TakeLast(history, 8);
    assert |w| <= 8;
    HistoryContents(w)
  }

  /**
   * `toContents`: the last 8 history items (taken before blank ones are dropped), then the trimmed
   * message as the final user turn.
   */
  function ToContents(history: seq<ChatHistoryItem>, message: string): (r: seq<Content>)
    ensures 1 <= |r| <= 9
    ensures r[|r| - 1] == Content("user", Trim(message))
    ensures forall i :: 0 <= i < |r| - 1 ==> r[i].text != ""
  {
    var h := HistoryWindow(history);
    assert |h| <= 8;
    var last := Content("user", Trim(message));
    assert forall i :: 0 <= i < |h| ==> (h + [last])[i] == h[i];
    h + [last]
  }

  /** Each item as a turn of its own: what the history becomes when none of it is blank. */
  function Turns(items: seq<ChatHistoryItem>): (r: seq<Content>)
    ensures |r| == |items|
  {
    seq(|items|, i requires 0 <= i < |items| => Content(RoleName(items[i].role), Trim(items[i].content)))
  }

  /** Items that are none of them blank are all kept, in order, each with its role mapped. */
  lemma {:induction false} HistoryContentsKeepsNonBlank(items: seq<ChatHistoryItem>)
    requires forall i :: 0 <= i < |items| ==> Trim(items[i].content) != ""
    ensures HistoryContents(items) == Turns(items)
  {
    if items != [] {
      HistoryContentsKeepsNonBlank(items[1..]);
      assert Turns(items) == [Content(RoleName(items[0].role), Trim(items[0].content))] + Turns(items[1..]);
    }
  }

  /** Dropping blank items distributes over concatenation: each item contributes on its own. */
  lemma {:induction false} HistoryContentsConcat(a: seq<ChatHistoryItem>, b: seq<ChatHistoryItem>)
    ensures HistoryContents(a + b) == HistoryContents(a) + HistoryContents(b)
  {
    if a == [] {
      assert a + b == b;
    } else {
      assert (a + b)[0] == a[0];
      assert (a + b)[1..] == a[1..] + b;
      HistoryContentsConcat(a[1..], b);
    }
  }

  /** One item: dropped when blank after trimming, otherwise one turn with its role mapped and its text trimmed. */
  lemma HistoryContentsOne(item: ChatHistoryItem)
    ensures Trim(item.content) == "" ==> HistoryContents([item]) == []
    ensures Trim(item.content) != "" ==> HistoryContents([item]) == [Content(RoleName(item.role), Trim(item.content))]
  {
    assert [item][1..] == [];
  }

  /**
   * The window is cut before blank items are dropped: a blank last item still takes one of the
   * eight places, so only seven earlier items can contribute.
   */
  lemma BlankTakesWindowPlace(history: seq<ChatHistoryItem>, blank: ChatHistoryItem, message: string)
    requires Trim(blank.content) == ""
    ensures ToContents(history + [blank], message)
            == HistoryContents(TakeLast(history, 7)) + [Content("user", Trim(message))]
  {
    var w := TakeLast(history + [blank], 8);
    assert w == TakeLast(history, 7) + [blank];
    HistoryContentsConcat(TakeLast(history, 7), [blank]);
    HistoryContentsOne(blank);
  }

  /** Only the last eight items count: a history with no blank item contributes exactly its final eight turns. */
  lemma {:induction false} ToContentsWindow(history: seq<ChatHistoryItem>, message: string)
    requires forall i :: 0 <= i < |history| ==> Trim(history[i].content) != ""
    ensures ToContents(history, message) == Turns(TakeLast(history, 8)) + [Content("user", Trim(message))]
  {
    var w := TakeLast(history, 8);
    assert forall i :: 0 <= i < |w| ==> w[i] == history[|history| - |w| + i];
    HistoryContentsKeepsNonBlank(w);
  }

  /** `getTextModel`: the deep-dive model only for a researcher asking for deep dive. */
  function GetTextModel(mode: ChatMode, tier: ModelTier): (r: string)
    ensures mode == Researcher && tier == DeepDive ==> r == RESEARCH_DEEP_DIVE_MODEL
    ensures !(mode == Researcher && tier == DeepDive) ==> r == DEFAULT_TEXT_MODEL
    ensures r == RESEARCH_DEEP_DIVE_MODEL <==> mode == Researcher && tier == DeepDive
  {
    if mode == Researcher && tier == DeepDive then RESEARCH_DEEP_DIVE_MODEL else DEFAULT_TEXT_MODEL
  }

  /**
   * `getImageModel`: the high-quality model for `high_quality`, the standard one otherwise. With
   * no model configured for high quality, both are the standard model.
   */
  function GetImageModel(tier: ModelTier): (r: string)
    ensures tier == HighQuality ==> r == IMAGE_HIGH_QUALITY_MODEL
    ensures tier != HighQuality ==> r == IMAGE_STANDARD_MODEL
    ensures r == IMAGE_STANDARD_MODEL
  {
    if tier == HighQuality then IMAGE_HIGH_QUALITY_MODEL else IMAGE_STANDARD_MODEL
  }

  const IMAGE_STYLE_SUFFIX: string := ". style: scientific illustration, cinematic lighting, neon medical style, high detail"
  const DEFAULT_VOICE: string := "Kore"

  /** The payload of each generation call, as far as the model keeps it. */
  datatype GenRequest =
    | TextRequest(model: string, contents: seq<Content>, systemInstruction: string,
                  temperature: real, maxOutputTokens: nat, googleSearch: bool)
    | ImageRequest(model: string, text: string, modalities: seq<string>)
    | AudioRequest(model: string, text: string, modalities: seq<string>, voiceName: Json)

  /** `callGeminiText`'s payload; the search tool is attached only when asked for. */
  function TextPayload(model: string, history: seq<ChatHistoryItem>, message: string,
                       systemInstruction: string, useGoogleSearch: bool): (r: GenRequest)
    ensures r.TextRequest? && r.model == model && r.contents == ToContents(history, message)
    ensures r.systemInstruction == systemInstruction && r.googleSearch == useGoogleSearch
    ensures r.temperature == 0.65 && r.maxOutputTokens == 1100
  {
    TextRequest(model, ToContents(history, message), systemInstruction, 0.65, 1100, useGoogleSearch)
  }

  /** `callGeminiImage`'s payload: the trimmed prompt followed by the fixed style suffix. */
  function ImagePayload(model: string, prompt: string): (r: GenRequest)
    ensures r.ImageRequest? && r.model == model && r.modalities == ["TEXT", "IMAGE"]
    ensures r.text == Trim(prompt) + IMAGE_STYLE_SUFFIX
  {
    ImageRequest(model, Trim(prompt) + IMAGE_STYLE_SUFFIX, ["TEXT", "IMAGE"])
  }

  /** `callGeminiAudio`'s payload: the trimmed text, and the voice `Kore` unless one is given. */
  function AudioPayload(model: string, text: string, voiceName: Option<Json>): (r: GenRequest)
    ensures r.AudioRequest? && r.model == model && r.text == Trim(text) && r.modalities == ["AUDIO"]
    ensures voiceName.None? || voiceName == Some(JNull) ==> r.voiceName == JStr("Kore")
    ensures voiceName.Some? && voiceName.value != JNull ==> r.voiceName == voiceName.value
  {
    AudioRequest(model, Trim(text), ["AUDIO"],
                 if voiceName.None? || voiceName.value.JNull? then JStr(DEFAULT_VOICE) else voiceName.value)
  }

  // ---- response bodies ----

  datatype InlineData = InlineData(mimeType: Option<Json>, data: Option<Json>)

  datatype Part = Part(text: Option<Json>, inlineData: Option<InlineData>)

  datatype Web = Web(title: Option<Json>, uri: Option<Json>)

  datatype Chunk = Chunk(web: Option<Web>)

  /** A candidate: `content.parts`, `groundingMetadata.groundingChunks` and `.webSearchQueries`. */
  datatype Candidate = Candidate(parts: Option<seq<Part>>, groundingChunks: Option<seq<Chunk>>,
                                 webSearchQueries: Option<seq<Json>>)

  /** A token count member: missing (or null), a number, or a value `Number` turns into NaN. */
  datatype Count = Missing | Number(n: int) | NaN

  datatype UsageMetadata = UsageMetadata(promptTokenCount: Count, candidatesTokenCount: Count, totalTokenCount: Count)

  datatype GenBody = GenBody(candidates: Option<seq<Candidate>>, usageMetadata: Option<UsageMetadata>)

  /**
   * What a call gets back: a failure it raises (a status that is not ok, or the request itself
   * failing) with its message, or a body. A body that is not JSON reads as the empty body.
   */
  datatype GenReply = GenFailure(message: string) | GenOk(body: GenBody)

  const EMPTY_CANDIDATE: Candidate := Candidate(None, None, None)

  /** `candidates[0] ?? {}`. */
  function FirstCandidate(body: GenBody): (c: Candidate)
    ensures body.candidates.Some? && |body.candidates.value| > 0 ==> c == body.candidates.value[0]
    ensures body.candidates.None? || body.candidates.value == [] ==> c == Candidate(None, None, None)
  {
    var cs := OrElse(body.candidates, []);
    if |cs| > 0 then cs[0] else EMPTY_CANDIDATE
  }

  /** `candidate.content?.parts ?? []`. */
  function PartsOf(body: GenBody): (ps: seq<Part>)
    ensures FirstCandidate(body).parts.Some? ==> ps == FirstCandidate(body).parts.value
    ensures body.candidates.None? || body.candidates.value == [] ==> ps == []
  {
    OrElse(FirstCandidate(body).parts, [])
  }

  /** The text parts that are strings and non-empty, in order. */
  function PartTexts(parts: seq<Part>): (r: seq<string>)
    ensures |r| <= |parts|
    ensures forall i :: 0 <= i < |r| ==> r[i] != ""
  {
    if parts == [] then []
    else
      var t := parts[0].text;
      (if t.Some? && t.value.JStr? && t.value.s != "" then [t.value.s] else []) + PartTexts(parts[1..])
  }

  /** Collecting the texts distributes over concatenation: each part contributes on its own. */
  lemma {:induction false} PartTextsConcat(a: seq<Part>, b: seq<Part>)
    ensures PartTexts(a + b) == PartTexts(a) + PartTexts(b)
  {
    if a == [] {
      assert a + b == b;
    } else {
      assert (a + b)[0] == a[0];
      assert (a + b)[1..] == a[1..] + b;
      PartTextsConcat(a[1..], b);
    }
  }

  /** One part contributes its text exactly when that text is a non-empty string. */
  lemma PartTextsOne(p: Part)
    ensures p.text.Some? && p.text.value.JStr? && p.text.value.s != "" ==> PartTexts([p]) == [p.text.value.s]
    ensures !(p.text.Some? && p.text.value.JStr? && p.text.value.s != "") ==> PartTexts([p]) == []
  {
    assert [p][1..] == [];
  }

  /**
   * A further part with a non-empty string text adds a line feed and that text to the joined reply
   * (before trimming), or is the whole of it when no earlier part had text; any other part adds nothing.
   */
  lemma JoinedPartsAppend(ps: seq<Part>, p: Part)
    ensures var before := Join(PartTexts(ps), "\n");
            var after := Join(PartTexts(ps + [p]), "\n");
            && (p.text.Some? && p.text.value.JStr? && p.text.value.s != "" ==>
                  after == (if PartTexts(ps) == [] then p.text.value.s else before + "\n" + p.text.value.s))
            && (!(p.text.Some? && p.text.value.JStr? && p.text.value.s != "") ==> after == before)
  {
    PartTextsConcat(ps, [p]);
    PartTextsOne(p);
    if p.text.Some? && p.text.value.JStr? && p.text.value.s != "" {
      if PartTexts(ps) == [] {
        assert PartTexts(ps + [p]) == [p.text.value.s];
      } else {
        JoinSnoc(PartTexts(ps), p.text.value.s, "\n");
      }
    } else {
      assert PartTexts(ps + [p]) == PartTexts(ps);
    }
  }

  /** The reply text: the non-empty string parts joined with a line feed, trimmed. */
  function ReplyText(body: GenBody): (r: string)
    ensures r == [] || (!IsSpace(r[0]) && !IsSpace(r[|r| - 1]))
  {
    Trim(Join(PartTexts(PartsOf(body)), "\n"))
  }

  /** Two string parts are joined by a line feed, and a part that is not a string adds nothing. */
  lemma ReplyTextJoins()
    ensures PartTexts([Part(Some(JStr("a")), None), Part(Some(JInt(1)), None), Part(None, None),
                       Part(Some(JStr("")), None), Part(Some(JStr("b")), None)]) == ["a", "b"]
    ensures Join(["a", "b"], "\n") == "a\nb"
  {
  }

  /** `String(v ?? fallback)`. */
  function StringOr(v: Option<Json>, fallback: string): string {
    if v.None? || v.value.JNull? then fallback else ToJsString(v.value)
  }

  /** The grounding sources: chunks with a `web` object whose `uri` is non-empty; title `Fuente` by default. */
  function SourcesOf(chunks: seq<Chunk>): (r: seq<GroundingSource>)
    ensures |r| <= |chunks|
    ensures forall i :: 0 <= i < |r| ==> r[i].uri != ""
  {
    if chunks == [] then []
    else
      var w := chunks[0].web;
      var keep := w.Some? && StringOr(w.value.uri, "") != "";
      (if keep then [GroundingSource(StringOr(w.value.title, "Fuente"), StringOr(w.value.uri, ""))] else [])
      + SourcesOf(chunks[1..])
  }

  /** Collecting the sources distributes over concatenation: each chunk contributes on its own. */
  lemma {:induction false} SourcesOfConcat(a: seq<Chunk>, b: seq<Chunk>)
    ensures SourcesOf(a + b) == SourcesOf(a) + SourcesOf(b)
  {
    if a == [] {
      assert a + b == b;
    } else {
      assert (a + b)[0] == a[0];
      assert (a + b)[1..] == a[1..] + b;
      SourcesOfConcat(a[1..], b);
    }
  }

  /**
   * One chunk: without a `web` object, or with a `uri` that is missing, null or prints empty, it is
   * dropped; otherwise it is one source with that uri and its title, `Fuente` when the title is
   * missing or null.
   */
  lemma SourcesOfOne(c: Chunk)
    ensures c.web.None? ==> SourcesOf([c]) == []
    ensures c.web.Some? && StringOr(c.web.value.uri, "") == "" ==> SourcesOf([c]) == []
    ensures c.web.Some? && (c.web.value.uri.None? || c.web.value.uri == Some(JNull)) ==> SourcesOf([c]) == []
    ensures c.web.Some? && StringOr(c.web.value.uri, "") != "" ==>
              SourcesOf([c]) == [GroundingSource(StringOr(c.web.value.title, "Fuente"), StringOr(c.web.value.uri, ""))]
    ensures c.web.Some? && StringOr(c.web.value.uri, "") != "" && (c.web.value.title.None? || c.web.value.title == Some(JNull)) ==>
              SourcesOf([c]) == [GroundingSource("Fuente", StringOr(c.web.value.uri, ""))]
  {
    assert [c][1..] == [];
  }

  /** A web chunk without a title is a source titled `Fuente`; one without a uri is dropped. */
  lemma SourceDefaults(uri: string)
    requires uri != ""
    ensures SourcesOf([Chunk(Some(Web(None, Some(JStr(uri)))))]) == [GroundingSource("Fuente", uri)]
    ensures SourcesOf([Chunk(Some(Web(Some(JStr("t")), None)))]) == []
    ensures SourcesOf([Chunk(None)]) == []
  {
  }

  /** The counts of `usageMetadata`, each made 0 when not finite. */
  datatype TokenUsage = TokenUsage(promptTokenCount: int, candidatesTokenCount: int, totalTokenCount: int)

  /** `Number(x ?? 0)`: `None` stands for NaN. */
  function NumberOrZero(c: Count): Option<int> {
    match c
    case Missing => Some(0)
    case Number(n) => Some(n)
    case NaN => None
  }

  /** `Number.isFinite(x) ? x : 0`. */
  function FiniteOrZero(x: Option<int>): int {
    if x.Some? then x.value else 0
  }

  /**
   * The usage counts: missing counts are 0, non-finite ones become 0, and a missing total is the
   * sum of the two raw counts (so it too is 0 when either of them is not finite).
   */
  function UsageOf(body: GenBody): (u: TokenUsage)
    ensures var m := OrElse(body.usageMetadata, UsageMetadata(Missing, Missing, Missing));
            && (m.promptTokenCount.Number? ==> u.promptTokenCount == m.promptTokenCount.n)
            && (!m.promptTokenCount.Number? ==> u.promptTokenCount == 0)
            && (m.candidatesTokenCount.Number? ==> u.candidatesTokenCount == m.candidatesTokenCount.n)
            && (!m.candidatesTokenCount.Number? ==> u.candidatesTokenCount == 0)
            && (m.totalTokenCount.Number? ==> u.totalTokenCount == m.totalTokenCount.n)
            && (m.totalTokenCount.NaN? ==> u.totalTokenCount == 0)
            && (m.totalTokenCount.Missing? && !m.promptTokenCount.NaN? && !m.candidatesTokenCount.NaN? ==>
                  u.totalTokenCount == u.promptTokenCount + u.candidatesTokenCount)
            && (m.totalTokenCount.Missing? && (m.promptTokenCount.NaN? || m.candidatesTokenCount.NaN?) ==>
                  u.totalTokenCount == 0)
  {
    var m := OrElse(body.usageMetadata, UsageMetadata(Missing, Missing, Missing));
    var prompt := NumberOrZero(m.promptTokenCount);
    var candidates := NumberOrZero(m.candidatesTokenCount);
    var total :=
      if m.totalTokenCount.Missing? then
        (if prompt.Some? && candidates.Some? then Some(prompt.value + candidates.value) else None)
      else NumberOrZero(m.totalTokenCount);
    TokenUsage(FiniteOrZero(prompt), FiniteOrZero(candidates), FiniteOrZero(total))
  }

  datatype TextResult = TextResult(text: string, sources: seq<GroundingSource>, usage: TokenUsage, groundedQueries: nat)

  /** What `callGeminiText` returns for a body it got with an ok status. */
  function ExtractText(body: GenBody): (r: TextResult)
    ensures r.text == ReplyText(body)
    ensures forall i :: 0 <= i < |r.sources| ==> r.sources[i].uri != ""
    ensures r.sources == SourcesOf(OrElse(FirstCandidate(body).groundingChunks, []))
    ensures r.groundedQueries == |OrElse(FirstCandidate(body).webSearchQueries, [])|
    ensures r.usage == UsageOf(body)
  {
    var c := FirstCandidate(body);
    TextResult(ReplyText(body), SourcesOf(OrElse(c.groundingChunks, [])), UsageOf(body),
               |OrElse(c.webSearchQueries, [])|)
  }

  /** `parts.find(part => typeof part.inlineData?.data === 'string')`. */
  function FindInline(parts: seq<Part>): (r: Option<InlineData>)
    ensures r.Some? ==> exists i :: 0 <= i < |parts| && parts[i].inlineData == r
    ensures r.Some? ==> r.value.data.Some? && r.value.data.value.JStr?
    ensures r.None? ==> forall i :: 0 <= i < |parts| ==>
              parts[i].inlineData.None? || parts[i].inlineData.value.data.None? || !parts[i].inlineData.value.data.value.JStr?
  {
    if parts == [] then None
    else
      var d := parts[0].inlineData;
      if d.Some? && d.value.data.Some? && d.value.data.value.JStr? then d
      else
        var rest := FindInline(parts[1..]);
        assert rest.Some? ==> exists i :: 0 <= i < |parts[1..]| && parts[1..][i].inlineData == rest;
        assert rest.Some? ==> exists i :: 1 <= i < |parts| && parts[i].inlineData == rest;
        rest
  }

  /** `typeof part.inlineData?.data === 'string'`. */
  predicate HasStringData(p: Part) {
    p.inlineData.Some? && p.inlineData.value.data.Some? && p.inlineData.value.data.value.JStr?
  }

  /**
   * The part found is the earliest one with string data: every part before it has none, and
   * nothing is found exactly when no part has any.
   */
  lemma {:induction false} FindInlineFirst(parts: seq<Part>) returns (i: nat)
    ensures FindInline(parts).Some? ==>
              i < |parts| && HasStringData(parts[i]) && FindInline(parts) == parts[i].inlineData
              && forall j :: 0 <= j < i ==> !HasStringData(parts[j])
    ensures FindInline(parts).None? <==> forall j :: 0 <= j < |parts| ==> !HasStringData(parts[j])
  {
    if parts == [] {
      i := 0;
    } else if HasStringData(parts[0]) {
      i := 0;
    } else {
      var k := FindInlineFirst(parts[1..]);
      i := k + 1;
      assert forall j :: 1 <= j < |parts| ==> parts[j] == parts[1..][j - 1];
    }
  }

  /** The first part with string data wins, even when a later one also has some. */
  lemma FindInlineTakesFirst(d1: string, d2: string, x: Json)
    ensures FindInline([Part(Some(x), None), Part(None, Some(InlineData(None, Some(JStr(d1))))),
                        Part(None, Some(InlineData(None, Some(JStr(d2)))))])
            == Some(InlineData(None, Some(JStr(d1))))
  {
  }

  /** The mime type and data of the first inline part: `''` when there is none. */
  function BinaryOf(body: GenBody, defaultMime: string): (r: (string, string))
    ensures FindInline(PartsOf(body)).None? ==> r.1 == ""
    ensures FindInline(PartsOf(body)).Some? ==>
              var d := FindInline(PartsOf(body)).value;
              r == (StringOr(d.mimeType, defaultMime), d.data.value.s)
  {
    var d := OrElse(FindInline(PartsOf(body)), InlineData(None, None));
    (StringOr(d.mimeType, defaultMime), StringOr(d.data, ""))
  }

  datatype ImageResult = ImageResult(imageDataUrl: string, usage: TokenUsage)

  const DEFAULT_IMAGE_MIME: string := "image/png"
  const NO_IMAGE_DATA: string := "Gemini image response did not contain binary image data"

  /** What `callGeminiImage` returns for a body with an ok status: a data URL, or an error when empty. */
  function ExtractImage(body: GenBody): (r: Result<ImageResult>)
    ensures r.Err? <==> BinaryOf(body, "image/png").1 == ""
    ensures r.Err? ==> r.message == NO_IMAGE_DATA
    ensures r.Ok? ==> var (mime, data) := BinaryOf(body, "image/png");
              r.value.imageDataUrl == "data:" + mime + ";base64," + data && r.value.usage == UsageOf(body)
  {
    var (mime, data) := BinaryOf(body, DEFAULT_IMAGE_MIME);
    if data == "" then Err(NO_IMAGE_DATA)
    else Ok(ImageResult("data:" + mime + ";base64," + data, UsageOf(body)))
  }

  datatype AudioResult = AudioResult(audioBase64: string, mimeType: string, usage: TokenUsage)

  const DEFAULT_AUDIO_MIME: string := "audio/pcm;rate=24000"
  const NO_AUDIO_DATA: string := "Gemini audio response did not contain binary audio data"

  /** What `callGeminiAudio` returns: the data and its mime type, `audio/pcm;rate=24000` by default. */
  function ExtractAudio(body: GenBody): (r: Result<AudioResult>)
    ensures r.Err? <==> BinaryOf(body, "audio/pcm;rate=24000").1 == ""
    ensures r.Err? ==> r.message == NO_AUDIO_DATA
    ensures r.Ok? ==> (r.value.audioBase64 != "" && r.value.usage == UsageOf(body)
                       && (r.value.mimeType, r.value.audioBase64) == BinaryOf(body, "audio/pcm;rate=24000"))
  {
    var (mime, data) := BinaryOf(body, DEFAULT_AUDIO_MIME);
    if data == "" then Err(NO_AUDIO_DATA) else Ok(AudioResult(data, mime, UsageOf(body)))
  }

  /** An image part with data and no mime type becomes a PNG data URL. */
  lemma ImageDefaultsToPng(data: string)
    requires data != ""
    ensures var body := GenBody(Some([Candidate(Some([Part(None, Some(InlineData(None, Some(JStr(data)))))]), None, None)]), None);
            ExtractImage(body) == Ok(ImageResult("data:image/png;base64," + data, TokenUsage(0, 0, 0)))
  {
    assert "data:" + "image/png" + ";base64," + data == "data:image/png;base64," + data;
  }

  /** A body with no candidates has no image data, which is an error rather than an empty image. */
  lemma EmptyBodyHasNoImage()
    ensures ExtractImage(GenBody(None, None)) == Err(NO_IMAGE_DATA)
    ensures ExtractAudio(GenBody(None, None)) == Err(NO_AUDIO_DATA)
  {
  }

  function CallText(reply: GenReply): (r: Result<TextResult>)
    ensures reply.GenFailure? ==> r == Err(reply.message)
    ensures reply.GenOk? ==> r == Ok(ExtractText(reply.body))
  {
    match reply
    case GenFailure(m) => Err(m)
    case GenOk(body) => Ok(ExtractText(body))
  }

  function CallImage(reply: GenReply): (r: Result<ImageResult>)
    ensures reply.GenFailure? ==> r == Err(reply.message)
    ensures reply.GenOk? ==> r == ExtractImage(reply.body)
  {
    match reply
    case GenFailure(m) => Err(m)
    case GenOk(body) => ExtractImage(body)
  }

  function CallAudio(reply: GenReply): (r: Result<AudioResult>)
    ensures reply.GenFailure? ==> r == Err(reply.message)
    ensures reply.GenOk? ==> r == ExtractAudio(reply.body)
  {
    match reply
    case GenFailure(m) => Err(m)
    case GenOk(body) => ExtractAudio(body)
  }
}
