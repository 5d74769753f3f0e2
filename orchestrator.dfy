/**
 * The application shell (App.tsx): one analysis cycle merges the reasoning
 * result with the digitizer's result, moves the analysis state through
 * loading to success or failure, and may post a sniper alert to the chat.
 *
 * The two model calls are inputs: `reasoning` is what `analyzeFinancialChart`
 * returned or threw (its message), `vectorData` what `digitizeChartImage`
 * returned. The clock is an input too.
 */
module Orchestrator {
  import opened Wrappers
  import opened Types
  import Text
  import ChartInspector
  import AnalysisView
  import GeminiService

  datatype Tab = Terminal | Strategy

  /** A clock reading: `Date.now()` as the message id text and as the timestamp. */
  datatype Stamp = Stamp(id: string, millis: int)

  const Idle: AnalysisState := AnalysisState(false, None, None)
  const Loading: AnalysisState := AnalysisState(true, None, None)

  function Succeeded(signal: TradingSignal): AnalysisState {
    AnalysisState(false, Some(signal), None)
  }

  function Failed(message: string): AnalysisState {
    AnalysisState(false, None, Some(message))
  }

  /** Everything but the calibration and the digitized data is the same. */
  predicate SameVerdict(a: TradingSignal, b: TradingSignal) {
    && a.action == b.action && a.confidence == b.confidence && a.patterns == b.patterns
    && a.stopLoss == b.stopLoss && a.takeProfit == b.takeProfit && a.reasoning == b.reasoning
    && a.rawText == b.rawText && a.isSniperAlert == b.isSniperAlert
  }

  /**
   * The merge in `runAnalysis`: with digitized data, the data is attached and,
   * if the reasoning result has metadata, its bounds are replaced by the
   * digitizer's (the detected asset stays); metadata that is missing stays
   * missing. Without digitized data the reasoning result is used as it is.
   */
  function MergeDigitizer(signal: TradingSignal, vectorData: Option<ChartVectorData>): (merged: TradingSignal)
    ensures vectorData.None? ==> merged == signal
    ensures vectorData.Some? ==> merged.vectorData == vectorData
    ensures merged.chartMetadata.Some? <==> signal.chartMetadata.Some?
    ensures vectorData.Some? && signal.chartMetadata.Some? ==>
              merged.chartMetadata.value == ChartMetadata(vectorData.value.minPrice, vectorData.value.maxPrice,
                                                          signal.chartMetadata.value.detectedAsset)
    ensures SameVerdict(merged, signal)
  {
    match vectorData
    case None => signal
    case Some(v) =>
      var metadata := if signal.chartMetadata.Some? then
                        Some(signal.chartMetadata.value.(minPrice := v.minPrice, maxPrice := v.maxPrice))
                      else None;
      signal.(vectorData := vectorData, chartMetadata := metadata)
  }

  /** Merging the same digitized data again changes nothing. */
  lemma MergeIdempotent(signal: TradingSignal, vectorData: Option<ChartVectorData>)
    ensures MergeDigitizer(MergeDigitizer(signal, vectorData), vectorData) == MergeDigitizer(signal, vectorData)
  {
  }

  /** After a merge with digitized data, the inspector's band depends on the
      digitizer alone: its non-zero bounds, else the default band, whatever the
      reasoning pass estimated. */
  lemma MergedBandFollowsDigitizer(signal: TradingSignal, v: ChartVectorData)
    ensures var merged := MergeDigitizer(signal, Some(v));
            ChartInspector.ResolveBand(merged.vectorData, merged.chartMetadata) ==
              ChartInspector.Band(if v.minPrice != 0.0 then v.minPrice else ChartInspector.DefaultMinPrice,
                                  if v.maxPrice != 0.0 then v.maxPrice else ChartInspector.DefaultMaxPrice)
  {
  }

  /** The alert's text starts with this and goes on with the action. */
  const AlertLead: string := "🚨 ALERTA SNIPER: Patrón Envolvente detectado con volumen. Acción recomendada: "

  /** The chat message posted for a sniper alert. */
  function AlertMessage(signal: TradingSignal, stamp: Stamp): (message: ChatMessage)
    ensures message.role == Model && message.isAlert == Some(true)
    ensures message.id == stamp.id && message.timestamp == stamp.millis
    ensures Text.OccursAt(message.text, ActionName(signal.action), |AlertLead|)
    ensures Text.Contains(message.text, signal.stopLoss)
  {
    var text := AlertLead + ActionName(signal.action) + ". Stop: " + signal.stopLoss + ".";
    var at := |AlertLead| + |ActionName(signal.action)| + 8;
    assert text[|AlertLead|..|AlertLead| + |ActionName(signal.action)|] == ActionName(signal.action);
    assert text[at..at + |signal.stopLoss|] == signal.stopLoss;
    assert Text.OccursAt(text, signal.stopLoss, at);
    ChatMessage(stamp.id, Model, text, stamp.millis, Some(true))
  }

  /** An alert is posted exactly when the signal is flagged and alerts are on. */
  predicate ShouldAlert(signal: TradingSignal, alertsEnabled: bool) {
    signal.isSniperAlert == Some(true) && alertsEnabled
  }

  /** No alert is posted with the switch off, nor for a signal whose flag is
      missing or false; the fallback signal never raises one. */
  lemma AlertNeedsFlagAndSwitch(messages: seq<ChatMessage>, merged: TradingSignal, alertsEnabled: bool, stamp: Stamp)
    ensures !alertsEnabled ==> AfterCycle(messages, merged, alertsEnabled, stamp) == messages
    ensures merged.isSniperAlert != Some(true) ==> AfterCycle(messages, merged, alertsEnabled, stamp) == messages
    ensures !ShouldAlert(GeminiService.FallbackSignal, alertsEnabled)
  {
  }

  /** The signal panel's sniper banner and the chat alert agree: the merged
      signal shows the banner exactly when the reasoning pass flagged it, and
      with the switch on an alert is posted exactly when the banner shows. */
  lemma BannerMatchesAlert(signal: TradingSignal, vectorData: Option<ChartVectorData>, alertsEnabled: bool)
    ensures AnalysisView.ShowsSniperBanner(MergeDigitizer(signal, vectorData)) <==> signal.isSniperAlert == Some(true)
    ensures var merged := MergeDigitizer(signal, vectorData);
            ShouldAlert(merged, alertsEnabled) <==> alertsEnabled && AnalysisView.ShowsSniperBanner(merged)
  {
  }

  /** The chat history after a successful cycle: one alert appended, or none. */
  function AfterCycle(messages: seq<ChatMessage>, merged: TradingSignal, alertsEnabled: bool, stamp: Stamp): (after: seq<ChatMessage>)
    ensures |after| == |messages| + (if ShouldAlert(merged, alertsEnabled) then 1 else 0)
    ensures after[..|messages|] == messages
    ensures ShouldAlert(merged, alertsEnabled) ==> after[|messages|] == AlertMessage(merged, stamp)
  {
    if ShouldAlert(merged, alertsEnabled) then messages + [AlertMessage(merged, stamp)] else messages
  }

  /** The panel follows the cycle: loading, then the merged signal, or the
      error when the reasoning call failed. */
  lemma PanelsThroughACycle(signal: TradingSignal, call: GeminiService.ModelCall,
                            parse: string -> Option<TradingSignal>)
    ensures AnalysisView.SelectPanel(Idle) == AnalysisView.UploadPrompt
    ensures AnalysisView.SelectPanel(Loading) == AnalysisView.LoadingPanel
    ensures AnalysisView.SelectPanel(Succeeded(signal)) == AnalysisView.SignalPanel(signal)
    ensures call.Failure? ==>
              var r := GeminiService.AnalyzeFinancialChart(call, parse);
              r.Failure? && AnalysisView.SelectPanel(Failed(r.error)) == AnalysisView.ErrorPanel(r.error)
  {
  }

  const Greeting: string := "Hola David, soy TradeMind. Estoy monitoreando el mercado con Sergio. ¿Escaneamos el DAX o esperamos señal?"

  class TradingApp {
    var activeTab: Tab
    var selectedImage: Option<string>
    var analysis: AnalysisState
    var messages: seq<ChatMessage>
    var alertsEnabled: bool

    constructor (startMillis: int)
      ensures activeTab == Terminal && selectedImage.None? && analysis == Idle && !alertsEnabled
      ensures messages == [ChatMessage("1", Model, Greeting, startMillis, None)]
    {
      activeTab := Terminal;
      selectedImage := None;
      analysis := Idle;
      messages := [ChatMessage("1", Model, Greeting, startMillis, None)];
      alertsEnabled := false;
    }

    /** The tab buttons. */
    method SelectTab(tab: Tab)
      modifies this
      ensures activeTab == tab
      ensures selectedImage == old(selectedImage) && analysis == old(analysis)
      ensures messages == old(messages) && alertsEnabled == old(alertsEnabled)
    {
      activeTab := tab;
    }

    /** The alert switch, handed down to the chat panel. */
    method SetAlertsEnabled(enabled: bool)
      modifies this
      ensures alertsEnabled == enabled
      ensures activeTab == old(activeTab) && selectedImage == old(selectedImage)
      ensures analysis == old(analysis) && messages == old(messages)
    {
      alertsEnabled := enabled;
    }

    /** The start of `runAnalysis`: loading, and any previous result or error is dropped. */
    method BeginAnalysis()
      modifies this
      ensures analysis == Loading
      ensures activeTab == old(activeTab) && selectedImage == old(selectedImage)
      ensures messages == old(messages) && alertsEnabled == old(alertsEnabled)
    {
      analysis := Loading;
    }

    /**
     * The end of `runAnalysis` once both calls have settled. A thrown reasoning
     * call ends in the error state with its message and posts nothing; otherwise
     * the merged signal is the result and an alert is appended when the signal
     * is flagged and alerts were on (`alertsEnabled` as the cycle saw it).
     */
    method CompleteAnalysis(reasoning: Result<TradingSignal, string>, vectorData: Option<ChartVectorData>,
                            alertsEnabled: bool, stamp: Stamp)
      modifies this
      ensures reasoning.Failure? ==> analysis == Failed(reasoning.error) && messages == old(messages)
      ensures reasoning.Success? ==>
                var merged := MergeDigitizer(reasoning.value, vectorData);
                analysis == Succeeded(merged) && messages == AfterCycle(old(messages), merged, alertsEnabled, stamp)
      ensures activeTab == old(activeTab) && selectedImage == old(selectedImage)
      ensures this.alertsEnabled == old(this.alertsEnabled)
    {
      match reasoning
      case Failure(message) =>
        analysis := Failed(message);
      case Success(signal) =>
        var merged := MergeDigitizer(signal, vectorData);
        analysis := Succeeded(merged);
        if ShouldAlert(merged, alertsEnabled) {
          messages := messages + [AlertMessage(merged, stamp)];
        }
    }

    /** `runAnalysis`, with the two calls' outcomes given. */
    method RunAnalysis(reasoning: Result<TradingSignal, string>, vectorData: Option<ChartVectorData>, stamp: Stamp)
      modifies this
      ensures reasoning.Failure? ==> analysis == Failed(reasoning.error) && messages == old(messages)
      ensures reasoning.Success? ==>
                var merged := MergeDigitizer(reasoning.value, vectorData);
                analysis == Succeeded(merged) && messages == AfterCycle(old(messages), merged, old(alertsEnabled), stamp)
      ensures activeTab == old(activeTab) && selectedImage == old(selectedImage) && alertsEnabled == old(alertsEnabled)
    {
      var enabled := alertsEnabled;
      BeginAnalysis();
      CompleteAnalysis(reasoning, vectorData, enabled, stamp);
    }

    /** `handleFileChange`: with no file nothing happens; otherwise the image is
        kept, the terminal tab is shown and the analysis runs on it. */
    method HandleFileChange(dataUrl: Option<string>, reasoning: Result<TradingSignal, string>,
                            vectorData: Option<ChartVectorData>, stamp: Stamp)
      modifies this
      ensures dataUrl.None? ==>
                && activeTab == old(activeTab) && selectedImage == old(selectedImage) && analysis == old(analysis)
                && messages == old(messages) && alertsEnabled == old(alertsEnabled)
      ensures dataUrl.Some? ==> selectedImage == dataUrl && activeTab == Terminal && alertsEnabled == old(alertsEnabled)
      ensures dataUrl.Some? && reasoning.Failure? ==> analysis == Failed(reasoning.error) && messages == old(messages)
      ensures dataUrl.Some? && reasoning.Success? ==>
                var merged := MergeDigitizer(reasoning.value, vectorData);
                analysis == Succeeded(merged) && messages == AfterCycle(old(messages), merged, old(alertsEnabled), stamp)
    {
      if dataUrl.None? {
        return;
      }
      selectedImage := dataUrl;
      activeTab := Terminal;
      RunAnalysis(reasoning, vectorData, stamp);
    }
  }
}
