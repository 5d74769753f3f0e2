/**
 * The data handling around the generative-model calls (services/geminiService.ts):
 * image header removal, cleaning of the model's reply before it is parsed,
 * the fallback records, and the extraction of web sources.
 *
 * A call to the model is an input of type `ModelCall`: either the response
 * or the message of what it threw (if it had one). `JSON.parse` is a
 * parameter `parse` that returns `None` where it would throw.
 */
module GeminiService {
  import opened Wrappers
  import opened Types
  import opened Text

  // ----- image header -----

  /** The data-URL headers removed before an image is sent, in the order of
      the alternation `png|jpeg|jpg|webp`. */
  const ImagePrefixes: seq<string> := [
    "data:image/png;base64,", "data:image/jpeg;base64,",
    "data:image/jpg;base64,", "data:image/webp;base64,"]

  /** The prefixes differ at index 11 or at index 13, so a text starts with at most one of them. */
  lemma PrefixSignature(s: string, k: nat)
    requires k < |ImagePrefixes| && StartsWith(s, ImagePrefixes[k])
    ensures s[11] == ImagePrefixes[k][11] && s[13] == ImagePrefixes[k][13]
  {
    var p := ImagePrefixes[k];
    assert s[..|p|] == p;
    assert s[11] == s[..|p|][11] && s[13] == s[..|p|][13];
  }

  /**
   * `image.replace(/^data:image\/(png|jpeg|jpg|webp);base64,/, "")`: the one
   * header at the very start of the text is removed; any other text is
   * returned as it is.
   */
  function StripDataUrlPrefix(image: string): (payload: string)
    ensures (forall k :: 0 <= k < |ImagePrefixes| ==> !StartsWith(image, ImagePrefixes[k])) ==> payload == image
    ensures forall k :: 0 <= k < |ImagePrefixes| && StartsWith(image, ImagePrefixes[k]) ==>
              image == ImagePrefixes[k] + payload
  {
    if StartsWith(image, ImagePrefixes[0]) then
      PrefixSignature(image, 0);
      assert image == image[..|ImagePrefixes[0]|] + image[|ImagePrefixes[0]|..];
      image[|ImagePrefixes[0]|..]
    else if StartsWith(image, ImagePrefixes[1]) then
      PrefixSignature(image, 1);
      assert image == image[..|ImagePrefixes[1]|] + image[|ImagePrefixes[1]|..];
      image[|ImagePrefixes[1]|..]
    else if StartsWith(image, ImagePrefixes[2]) then
      PrefixSignature(image, 2);
      assert image == image[..|ImagePrefixes[2]|] + image[|ImagePrefixes[2]|..];
      image[|ImagePrefixes[2]|..]
    else if StartsWith(image, ImagePrefixes[3]) then
      PrefixSignature(image, 3);
      assert image == image[..|ImagePrefixes[3]|] + image[|ImagePrefixes[3]|..];
      image[|ImagePrefixes[3]|..]
    else
      image
  }

  /** Removing the header gives back exactly what followed it, and only one
      header is removed: a second header in the payload stays. */
  lemma StripRoundTrip(k: nat, payload: string)
    requires k < |ImagePrefixes|
    ensures StripDataUrlPrefix(ImagePrefixes[k] + payload) == payload
  {
    var image := ImagePrefixes[k] + payload;
    assert image[..|ImagePrefixes[k]|] == ImagePrefixes[k];
    assert StartsWith(image, ImagePrefixes[k]);
  }

  /** A data URL of any other image type, such as GIF, is passed on unchanged. */
  lemma StripLeavesGif(payload: string)
    ensures StripDataUrlPrefix("data:image/gif;base64," + payload) == "data:image/gif;base64," + payload
  {
    var image := "data:image/gif;base64," + payload;
    assert image[11] == 'g';
    forall k | 0 <= k < |ImagePrefixes| ensures !StartsWith(image, ImagePrefixes[k]) {
      var p := ImagePrefixes[k];
      assert p[11] != 'g';
      if |p| <= |image| {
        assert image[..|p|][11] == image[11];
      }
    }
  }

  // ----- model replies -----

  /** `response.text || fallback`: a missing or empty reply becomes `fallback`. */
  function ResponseText(text: Option<string>, fallback: string): (r: string)
    ensures r == fallback || (text == Some(r) && r != "")
    ensures text.Some? && text.value != "" ==> r == text.value
  {
    if text.Some? && text.value != "" then text.value else fallback
  }

  /**
   * `text.replace(/```json/g, '').replace(/```/g, '').trim()`: the text the
   * parser is given never contains a code fence and never starts or ends with
   * white space.
   */
  function CleanJson(text: string): (json: string)
    ensures !Contains(json, Fence)
    ensures json == [] || (!IsSpace(json[0]) && !IsSpace(json[|json| - 1]))
  {
    var dejsoned := RemoveAll(text, "```json");
    var unfenced := RemoveAll(dejsoned, Fence);
    RemoveFencesLeavesNone(dejsoned);
    var json := Trim(unfenced);
    AbsentFromPart(unfenced, json, Fence);
    json
  }

  /** A reply wrapped in a JSON code fence is unwrapped to its trimmed body. */
  lemma {:induction false} CleanJsonUnwrapsFence(body: string)
    requires '`' !in body
    ensures CleanJson("```json" + body + Fence) == Trim(body)
  {
    var wrapped := "```json" + body + Fence;
    assert StartsWith(wrapped, "```json") by { assert wrapped[..7] == "```json"; }
    assert wrapped[7..] == body + Fence;
    RemoveAllPassesOver(body, Fence, "```json");
    assert RemoveAll(wrapped, "```json") == body + Fence;
    RemoveAllPassesOver(body, Fence, Fence);
    assert RemoveAll(Fence, Fence) == RemoveAll([], Fence);
    assert body + [] == body;
  }

  /** An empty news reply becomes the empty JSON array. */
  lemma MissingNewsTextIsEmptyArray()
    ensures CleanJson(ResponseText(None, "[]")) == "[]"
  {
    assert RemoveAll("[]", "```json") == "[]";
    assert RemoveAll("[]", Fence) == "[]";
    assert !IsSpace('[') && !IsSpace(']');
  }

  // ----- calls -----

  datatype WebSource = WebSource(title: string, uri: string)

  /** One grounding chunk of a search-grounded reply; only some carry a web entry. */
  datatype GroundingChunk = GroundingChunk(web: Option<WebSource>)

  /** What the model returns: its text, and the grounding chunks of its first candidate if any. */
  datatype ModelResponse = ModelResponse(text: Option<string>, groundingChunks: Option<seq<GroundingChunk>>)

  /** A finished call: the response, or the message of what it threw (`None` when it had none). */
  type ModelCall = Result<ModelResponse, Option<string>>

  const ConnectionError: string := "Error connecting to Gemini API"

  /** The record returned when the model's reply cannot be parsed as a signal. */
  const FallbackSignal: TradingSignal := TradingSignal(
    Espera, 0.0, [], "N/A", "N/A", "Error al interpretar la señal estructurada.",
    None, Some(false), None, None)

  /** The fallback recommends waiting with no confidence, no patterns, no
      levels, no alert and no calibration. */
  lemma FallbackSignalIsNeutral()
    ensures FallbackSignal.action == Espera && FallbackSignal.confidence == 0.0
    ensures FallbackSignal.patterns == [] && FallbackSignal.stopLoss == "N/A" && FallbackSignal.takeProfit == "N/A"
    ensures FallbackSignal.isSniperAlert == Some(false)
    ensures FallbackSignal.chartMetadata.None? && FallbackSignal.vectorData.None?
  {
  }

  /**
   * `analyzeFinancialChart`: a failed call is rethrown with its message, or
   * with `ConnectionError` when the message is missing or empty; a reply that
   * does not parse gives `FallbackSignal`; otherwise the parsed signal.
   */
  function AnalyzeFinancialChart(call: ModelCall, parse: string -> Option<TradingSignal>): (r: Result<TradingSignal, string>)
    ensures r.Failure? <==> call.Failure?
    ensures r.Failure? ==> r.error != ""
    ensures r.Failure? ==> r.error == if call.error.Some? && call.error.value != "" then call.error.value else ConnectionError
    ensures r.Success? && r.value != FallbackSignal ==> exists json :: !Contains(json, Fence) && parse(json) == Some(r.value)
    ensures call.Success? ==> var json := CleanJson(ResponseText(call.value.text, ""));
              && (parse(json).None? ==> r == Success(FallbackSignal))
              && (parse(json).Some? ==> r == Success(parse(json).value))
  {
    match call
    case Failure(message) =>
      Failure(if message.Some? && message.value != "" then message.value else ConnectionError)
    case Success(response) =>
      var json := CleanJson(ResponseText(response.text, ""));
      match parse(json)
      case Some(signal) => Success(signal)
      case None => Success(FallbackSignal)
  }

  /** When the cleaned reply does not parse, a call that went through yields the
      fallback record, whatever the reply held. */
  lemma AnalyzeFallsBack(response: ModelResponse, parse: string -> Option<TradingSignal>)
    requires parse(CleanJson(ResponseText(response.text, ""))).None?
    ensures AnalyzeFinancialChart(Success(response), parse) == Success(FallbackSignal)
  {
  }

  /** `digitizeChartImage`: never throws; every failure yields `None`. */
  function DigitizeChartImage(call: ModelCall, parse: string -> Option<ChartVectorData>): (r: Option<ChartVectorData>)
    ensures call.Failure? ==> r.None?
    ensures r.Some? ==> exists json :: !Contains(json, Fence) && parse(json) == r
    ensures call.Success? ==> var json := CleanJson(ResponseText(call.value.text, ""));
              && (parse(json).None? ==> r.None?)
              && (parse(json).Some? ==> r == parse(json))
  {
    match call
    case Failure(_) => None
    case Success(response) => parse(CleanJson(ResponseText(response.text, "")))
  }

  datatype Source = Source(title: string, uri: string)

  /** `chunks.map(c => c.web).filter(web => web).map(web => ({title, uri}))`. */
  function WebSources(chunks: seq<GroundingChunk>): (sources: seq<Source>)
    ensures |sources| <= |chunks|
    ensures |sources| == |chunks| <==> forall i :: 0 <= i < |chunks| ==> chunks[i].web.Some?
    ensures forall s :: s in sources ==> exists i :: 0 <= i < |chunks| && chunks[i].web == Some(WebSource(s.title, s.uri))
  {
    if chunks == [] then []
    else
      var rest := WebSources(chunks[1..]);
      assert forall s :: s in rest ==> exists i :: 1 <= i < |chunks| && chunks[i].web == Some(WebSource(s.title, s.uri)) by {
        forall s | s in rest ensures exists i :: 1 <= i < |chunks| && chunks[i].web == Some(WebSource(s.title, s.uri)) {
          var j :| 0 <= j < |chunks[1..]| && chunks[1..][j].web == Some(WebSource(s.title, s.uri));
          assert chunks[j + 1] == chunks[1..][j];
        }
      }
      match chunks[0].web
      case Some(web) => [Source(web.title, web.uri)] + rest
      case None => rest
  }

  /** The extraction keeps the chunks' order: it distributes over concatenation. */
  lemma {:induction false} WebSourcesConcat(a: seq<GroundingChunk>, b: seq<GroundingChunk>)
    ensures WebSources(a + b) == WebSources(a) + WebSources(b)
    decreases |a|
  {
    if a == [] {
      assert a + b == b;
    } else {
      assert (a + b)[0] == a[0];
      assert (a + b)[1..] == a[1..] + b;
      WebSourcesConcat(a[1..], b);
    }
  }

  /** The sources of a reply: none when the grounding metadata is missing. */
  function GroundingSources(chunks: Option<seq<GroundingChunk>>): (sources: seq<Source>)
    ensures chunks.None? ==> sources == []
    ensures chunks.Some? ==> |sources| <= |chunks.value|
    ensures chunks.Some? ==> sources == WebSources(chunks.value)
  {
    match chunks
    case None => []
    case Some(cs) => WebSources(cs)
  }

  datatype SummaryResult = SummaryResult(text: string, news: seq<NewsItem>, sources: seq<Source>)

  const SummaryText: string := "Resumen generado"
  const OfflineText: string := "Error de conexión."

  /**
   * `getStrategicSummary`: a call that went through gives the fixed text
   * `SummaryText`, the parsed news (none if the reply does not parse) and the
   * web sources; a failed call gives `OfflineText` with no news and no sources.
   */
  function GetStrategicSummary(call: ModelCall, parseNews: string -> Option<seq<NewsItem>>): (r: SummaryResult)
    ensures r.text == SummaryText <==> call.Success?
    ensures r.text == OfflineText <==> call.Failure?
    ensures call.Failure? ==> r.news == [] && r.sources == []
    ensures call.Success? ==> r.sources == GroundingSources(call.value.groundingChunks)
    ensures r.news != [] ==> exists json :: !Contains(json, Fence) && parseNews(json) == Some(r.news)
    ensures call.Success? ==> var json := CleanJson(ResponseText(call.value.text, "[]"));
              && (parseNews(json).None? ==> r.news == [])
              && (parseNews(json).Some? ==> r.news == parseNews(json).value)
  {
    match call
    case Failure(_) => SummaryResult(OfflineText, [], [])
    case Success(response) =>
      var parsed := parseNews(CleanJson(ResponseText(response.text, "[]")));
      SummaryResult(SummaryText, if parsed.Some? then parsed.value else [], GroundingSources(response.groundingChunks))
  }
}
