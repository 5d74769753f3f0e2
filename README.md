# TradeMind chart terminal: a Dafny model

TradeMind is a single-page trading assistant. A user uploads a screenshot of a
price chart. Two model calls run side by side:

- a reasoning pass returns a trading signal: an action, a confidence, patterns,
  levels and a sniper flag, with an estimated price calibration;
- a digitizing pass returns the chart as a vector series with its own price bounds.

The application merges the two results and shows the signal panel. It may post a
sniper alert to the chat. It lets the user inspect the image with a crosshair and a
measuring ruler whose prices come from the calibration.

This project models the parts of that behaviour that are decided by the code itself:

- `Types` (types.ts): the entities, as datatypes.
- `ChartInspector` (components/InteractiveChartInspector.tsx):
  - how the price band is chosen;
  - the pixel-to-price and pixel-to-time mapping;
  - the ruler's measurement;
  - the inspector's pointer state machine, as a class whose methods are the
    mouse handlers.
- `Orchestrator` (App.tsx): the application state as a class. It covers:
  - the merge of the digitizer's result into the signal;
  - the loading, success and failure transitions of one analysis cycle;
  - the sniper alert that is appended to the chat;
  - the file-selection handler.
- `AnalysisView` (components/AnalysisView.tsx):
  - the colour rules;
  - which of the four panels is shown;
  - the pattern list;
  - the order notice of the buy and sell buttons.
- `StrategicSummary` (components/StrategicSummary.tsx):
  - the `<<<STRATEGY>>>` / `<<<POINTS>>>` parse and the display fallbacks;
  - a lemma showing that the summary service only returns two fixed texts. Neither
    holds a marker, so the panel shows that text whole.
- `ChartVisualizer` (components/ChartVisualizer.tsx): the indicator list and its toggle.
- `GeminiService` (services/geminiService.ts): the data handling around the model calls:
  - the data-URL header strip;
  - reply cleaning, which removes code fences and trims;
  - the fallback records;
  - the extraction of web sources.
- `Text`: the JavaScript string built-ins these use: literal search, global
  literal `replace`, and `trim` over ECMAScript white space.

Several behaviours of the code are stated as they are written:

- Each price bound falls back on its own, so a band can come out inverted
  (`ChartInspector.MixedSourcesCanInvert`).
- The ruler's start point is not clamped, although every later point is.
- Leaving the container keeps the ruler's current point.
- The inspector starts in vector mode, and its mouse-down and mouse-move handlers
  do nothing in vector mode (mouse up and mouse leave always run). The mode button is disabled without digitized data. So a freshly mounted
  inspector without digitized data draws the raw image, but its ruler never starts
  (`ChartInspector.RulerBlockedWithoutVectorData`). The mode is the component's
  own state and survives new properties (`ChartInspector.Inspector.ReceiveProps`).
  So an inspector that was switched to the raw image during an earlier cycle
  keeps a working ruler.
- The code does not check that the band is ordered, does not clamp at
  mouse-down, and has no guard against a result that arrives late.

## Model

| member | source | states |
|---|---|---|
| Text.FindFrom | components/StrategicSummary.tsx:15-16 | The regular-expression search for a literal marker: the result is an occurrence at or after the start index, and no occurrence lies between the start and it. None means no occurrence at all from the start on. |
| Text.RemoveAll | services/geminiService.ts:55 | `replace(/literal/g, '')` scans left to right without rescanning, and never lengthens the text. |
| Text.RemoveAllAbsent | services/geminiService.ts:55 | A text that does not contain the literal comes back unchanged. |
| Text.RemoveAllPassesOver | services/geminiService.ts:55 | A prefix that holds no character equal to the literal's first one is copied through unchanged, and the rest is processed on its own. |
| Text.RemoveFencesLeavesNone | services/geminiService.ts:55 | After every triple backtick has been deleted, no triple backtick is left, including where deletions join backtick runs. |
| Text.SkipSpaces | services/geminiService.ts:55 | The first non-space at or after the start, with only white space before it. |
| Text.SkipSpacesBack | services/geminiService.ts:55 | The end of a range once its trailing white space is cut: only white space after it, and a non-space just before it. |
| Text.SpaceCutFacts | services/geminiService.ts:55 | A white-space cut with non-space ends occurs in the text. It is empty exactly for an all-white-space text, and it is the text itself when the text has non-space ends. |
| Text.Trim | services/geminiService.ts:55 | `trim()`: the result is the input with only white space cut from each end, and it has non-space ends. So it occurs inside the input. It is empty exactly when the input is all white space. It is the input itself when the input already has non-space ends. |
| Text.TrimIdempotent | services/geminiService.ts:55 | Trimming twice is trimming once. |
| GeminiService.PrefixSignature | services/geminiService.ts:12 | A text that starts with one of the four image headers agrees with that header at indices 11 and 13, which tell the four headers apart. |
| GeminiService.StripDataUrlPrefix | services/geminiService.ts:12 | Without a png/jpeg/jpg/webp header the image is unchanged. With one, the image is exactly that header followed by the result. |
| GeminiService.StripRoundTrip | services/geminiService.ts:12 | Stripping a header put in front of any payload gives back the payload, even when the payload itself starts with a header. |
| GeminiService.StripLeavesGif | services/geminiService.ts:12 | A data URL with another image type, such as GIF, is passed on unchanged. |
| GeminiService.ResponseText | services/geminiService.ts:54 | `response.text \|\| fallback`: the reply if it is present and non-empty, else the fallback. |
| GeminiService.CleanJson | services/geminiService.ts:55 | The text given to the JSON parser contains no code fence and has non-space ends. |
| GeminiService.CleanJsonUnwrapsFence | services/geminiService.ts:130-131 | A reply wrapped as a JSON code fence around a body without backticks becomes the trimmed body. |
| GeminiService.MissingNewsTextIsEmptyArray | services/geminiService.ts:186-187 | A missing news reply is parsed as the empty JSON array `[]`. |
| GeminiService.FallbackSignalIsNeutral | services/geminiService.ts:136-147 | The signal used for an unparseable reply has: action ESPERA, confidence 0, no patterns, N/A levels, the sniper flag false, and no calibration or vector data. |
| GeminiService.AnalyzeFinancialChart | services/geminiService.ts:68-153 | Fails exactly when the call failed, with the call's message or "Error connecting to Gemini API", and never with an empty message. On success, the result is the parse of the cleaned reply, or the fallback signal exactly when that text does not parse. |
| GeminiService.AnalyzeFallsBack | services/geminiService.ts:133-147 | When the cleaned reply does not parse, a call that succeeded yields the fallback signal. |
| GeminiService.DigitizeChartImage | services/geminiService.ts:10-62 | Never fails: a failed call gives null. On success the result is the parse of the cleaned reply, and null when that text does not parse. |
| GeminiService.WebSources | services/geminiService.ts:196-199 | At most one source per chunk. There are as many sources as chunks exactly when every chunk has a web entry. Every source is the title and URI of some chunk's web entry. |
| GeminiService.WebSourcesConcat | services/geminiService.ts:196-199 | The extraction keeps the chunks' order: it distributes over concatenation. |
| GeminiService.GroundingSources | services/geminiService.ts:196-199 | Missing grounding metadata gives no sources. Otherwise the sources are exactly the chunks' web entries, in order. |
| GeminiService.GetStrategicSummary | services/geminiService.ts:158-206 | The text is "Resumen generado" exactly when the call succeeded, and "Error de conexión." exactly when it failed. A failure has no news and no sources. A success has the reply's web sources. Its news is the parse of the cleaned reply (with "[]" for a missing reply), or none when that text does not parse. |
| ChartInspector.ResolveBand | components/InteractiveChartInspector.tsx:30-31 | Each bound, independently: the digitized value if it is present and non-zero, else the metadata value under the same test, else 16900 / 17050. |
| ChartInspector.ResolvedBoundsNonZero | components/InteractiveChartInspector.tsx:30-31 | A resolved bound is never zero. |
| ChartInspector.MinIgnoresMaxima | components/InteractiveChartInspector.tsx:30 | The minimum depends only on the two candidate minima. |
| ChartInspector.MixedSourcesCanInvert | components/InteractiveChartInspector.tsx:30-32 | A zero digitized minimum with a non-zero digitized maximum gives an inverted band. |
| ChartInspector.PriceAt | components/InteractiveChartInspector.tsx:34-37 | `calculatePrice`: the top edge reads the maximum and the bottom edge the minimum. A band of one price reads that price everywhere. |
| ChartInspector.PriceAtEdges | components/InteractiveChartInspector.tsx:34-37 | The top edge reads the maximum and the bottom edge the minimum. |
| ChartInspector.PriceAtAffine | components/InteractiveChartInspector.tsx:34-37 | The price difference between two heights is their distance over the height, times the range. |
| ChartInspector.PriceAtNonIncreasing | components/InteractiveChartInspector.tsx:34-37 | On an ordered band, a lower pointer never reads a higher price. |
| ChartInspector.PriceAtWithinBand | components/InteractiveChartInspector.tsx:34-37 | On an ordered band, every height inside the container reads a price inside the band. |
| ChartInspector.Clamp | components/InteractiveChartInspector.tsx:63-64 | `Math.max(0, Math.min(v, hi))` lies in [0, hi], is `v` inside it, 0 below it and `hi` above it. |
| ChartInspector.ClampedPriceInBand | components/InteractiveChartInspector.tsx:62-74 | A pointer above the container reads the maximum and one below it the minimum. On an ordered band every reading is inside the band. |
| ChartInspector.MinuteOffset | components/InteractiveChartInspector.tsx:76-77 | The left edge is 240 minutes ago and the right edge is now. |
| ChartInspector.MinuteOffsetInWindow | components/InteractiveChartInspector.tsx:76-77 | The left edge is 240 minutes ago and the right edge is now. Positions inside the container fall in that window. |
| ChartInspector.RoundHalfUp | components/InteractiveChartInspector.tsx:100 | `Math.round`: the result is within a half of the input, with halves going up, and it is non-negative for a non-negative input. |
| ChartInspector.Measure | components/InteractiveChartInspector.tsx:93-108 | The delta is the end price minus the start price. The reading is positive exactly when the delta is at least 0. The percent times the start price is 100 times the delta, and is absent exactly when the start price is 0. The bars are the horizontal distance over 10, rounded. |
| ChartInspector.PositiveIffNotLower | components/InteractiveChartInspector.tsx:93-108 | On a band whose maximum exceeds its minimum, a reading is positive exactly when the pointer is not below the start. |
| ChartInspector.RulerExample | components/InteractiveChartInspector.tsx:30-37 | On the default band, dragging from the bottom edge to the top edge reads +150, which is 15000/16900 percent. |
| ChartInspector.Inspector.constructor | components/InteractiveChartInspector.tsx:15-25 | Starts in vector mode, with a hidden cursor at the origin, the placeholder readout and no drag. |
| ChartInspector.Inspector.ReceiveProps | components/InteractiveChartInspector.tsx:14 | New properties replace the old ones, and the component's own state is kept. |
| ChartInspector.Inspector.ToggleVectorMode | components/InteractiveChartInspector.tsx:139-141 | Flips the mode only when digitized data exists, and changes nothing else. |
| ChartInspector.Inspector.MouseDown | components/InteractiveChartInspector.tsx:39-47 | In raw mode over a mounted container, a drag starts at the unclamped pointer point. Otherwise nothing changes. |
| ChartInspector.Inspector.MouseUp | components/InteractiveChartInspector.tsx:49-53 | The drag ends and both drag points are cleared. Nothing else changes. |
| ChartInspector.Inspector.MouseMove | components/InteractiveChartInspector.tsx:55-84 | In raw mode over a mounted container, the cursor is shown at the clamped point. A drag in progress moves its current point there, and its start point stays. The readout is the price and minute offset at the clamped point. Otherwise nothing changes. |
| ChartInspector.Inspector.MouseLeave | components/InteractiveChartInspector.tsx:86-90 | The cursor is hidden where it is, and the drag and its start point are cleared. The current drag point is kept. |
| ChartInspector.Inspector.CurrentMeasurement | components/InteractiveChartInspector.tsx:93-108 | Present exactly while a drag is in progress over a mounted container, and then it is the reading between the two drag points on the active band. |
| ChartInspector.RulerScenario | components/InteractiveChartInspector.tsx:39-108 | With digitized data, after switching to the raw image, pressing at the bottom and moving to the top 60 pixels right reads +150 over 6 bars. |
| ChartInspector.RulerBlockedWithoutVectorData | components/InteractiveChartInspector.tsx:20 | Without digitized data the raw image is drawn, but after a click on the mode button, a press and a move no drag is in progress. |
| AnalysisView.ActionTone | components/AnalysisView.tsx:33-37 | Green exactly for "COMPRA", red exactly for "VENTA", yellow otherwise. |
| AnalysisView.ActionTonesDistinct | components/AnalysisView.tsx:33-37 | The three actions a signal can carry get green, red and yellow. |
| AnalysisView.ConfidenceBarOf | components/AnalysisView.tsx:44-51 | Green exactly above 70, yellow exactly in (40, 70], red exactly at or below 40. The width is the confidence in percent. |
| AnalysisView.ConfidenceToneMonotone | components/AnalysisView.tsx:44-45 | More confidence never gives a worse colour. 70 and 40 belong to the lower band. |
| AnalysisView.PatternTone | components/AnalysisView.tsx:11-13 | Bullish is green, bearish is red and neutral is yellow, each exactly. |
| AnalysisView.PatternsSectionOf | components/AnalysisView.tsx:165-169 | The "Sin patrones definidos." note appears exactly when there are no patterns. Otherwise there is one card per pattern, in order, with its name, type, reliability and colour. |
| AnalysisView.SelectPanel | components/AnalysisView.tsx:74-90 | Precedence: loading first, then an error with non-empty text, then a result, then the upload prompt. Each panel is shown exactly under its condition and carries the state's message or signal. |
| AnalysisView.OrderNotice | components/AnalysisView.tsx:39-40 | The notice is "ORDEN DE " + the side's action name + " ENVIADA AL MERCADO". |
| AnalysisView.OrderNoticesDiffer | components/AnalysisView.tsx:39-40 | The buy and sell notices differ. |
| AnalysisView.SignalPanelState.constructor | components/AnalysisView.tsx:30-31 | Starts with the details closed and no notice. |
| AnalysisView.SignalPanelState.HandleAction | components/AnalysisView.tsx:39-42 | Shows the side's notice and leaves the details as they were. |
| AnalysisView.SignalPanelState.ToggleDetails | components/AnalysisView.tsx:152 | Flips the details and leaves the notice. |
| StrategicSummary.StrategyGroup | components/StrategicSummary.tsx:15 | A capture exists exactly when some strategy marker is followed by a points marker. The capture is the text from the first strategy marker to the first points marker after it. |
| StrategicSummary.StrategyGroupHasNoPointsMarker | components/StrategicSummary.tsx:15 | The lazy capture never contains a points marker. |
| StrategicSummary.PointsGroup | components/StrategicSummary.tsx:16 | A capture exists exactly when the text contains a points marker, and it is everything after the first one. |
| StrategicSummary.ParseSummary | components/StrategicSummary.tsx:15-21 | The strategy is the trimmed capture, which holds no points marker, or else the whole untrimmed text. The points are the trimmed tail, or else empty. |
| StrategicSummary.StrategyLine | components/StrategicSummary.tsx:65 | The strategy line is never blank: it is the strategy when that is non-empty, and otherwise the connecting text. |
| StrategicSummary.PointsBoxNeedsMarker | components/StrategicSummary.tsx:16-20 | The key-points box shows only for a text with a points marker, and then it shows the trimmed text after the first marker. |
| StrategicSummary.NoMarkerWithoutLead | components/StrategicSummary.tsx:15-16 | A text without the marker's first character holds no marker. |
| StrategicSummary.EmptyTextShowsConnecting | components/StrategicSummary.tsx:65-70 | An empty text shows "Conectando con el mercado..." and no key-points box. |
| StrategicSummary.MarkerFreeTextShownWhole | components/StrategicSummary.tsx:15-21 | A text without `<` is shown whole, with empty points. |
| StrategicSummary.ServiceTextsMarkerFree | services/geminiService.ts:201-204 | Neither of the service's two fixed texts contains a `<` or is empty. |
| StrategicSummary.SummaryPanelShowsServiceText | components/StrategicSummary.tsx:12-21 | Whatever the service call does, the panel shows the service's fixed text itself and no key points. |
| ChartVisualizer.Without | components/ChartVisualizer.tsx:68 | `filter(i => i !== id)`: the id is gone, every other id is present exactly when it was, and the list never grows. |
| ChartVisualizer.WithoutConcat | components/ChartVisualizer.tsx:68 | The filter keeps order: it distributes over concatenation. |
| ChartVisualizer.WithoutAbsent | components/ChartVisualizer.tsx:68 | Filtering out an absent id changes nothing. |
| ChartVisualizer.ToggleIndicator | components/ChartVisualizer.tsx:66-70 | The id's membership flips and every other id's stays. An absent id is appended at the end. |
| ChartVisualizer.WithoutDistinct | components/ChartVisualizer.tsx:68 | On a duplicate-free list, the filter keeps it duplicate-free and removes exactly one entry if the id was present. |
| ChartVisualizer.ToggleKeepsDistinct | components/ChartVisualizer.tsx:66-70 | A toggle keeps the list duplicate-free and changes the count shown on the menu button by exactly one. |
| ChartVisualizer.ToggleTwiceRestores | components/ChartVisualizer.tsx:66-70 | Adding an inactive study and removing it again restores the list. |
| ChartVisualizer.InitialIndicatorsDistinct | components/ChartVisualizer.tsx:23 | The initial list is RSI and MACD: two distinct studies. |
| Orchestrator.MergeDigitizer | App.tsx:56-64 | With digitized data: the data is attached, and the bounds of existing metadata are replaced while the detected asset is kept. Metadata is present after the merge exactly when it was before. Without digitized data the signal is unchanged. Action, confidence, patterns, levels, reasoning and the flag are always kept. |
| Orchestrator.MergeIdempotent | App.tsx:56-64 | Merging the same digitized data twice is merging it once. |
| Orchestrator.MergedBandFollowsDigitizer | App.tsx:56-64 | After a merge, the inspector's band is the digitizer's non-zero bounds or the defaults, whatever the reasoning pass estimated. |
| Orchestrator.AlertMessage | App.tsx:69-75 | The alert is a model message flagged as an alert, with the clock's id and timestamp. It names the action right after the fixed lead and contains the stop level. |
| Orchestrator.AfterCycle | App.tsx:68-77 | The history keeps every earlier message in order. Exactly one alert is appended when the signal is flagged and alerts are on, and none otherwise. |
| Orchestrator.AlertNeedsFlagAndSwitch | App.tsx:68 | With the switch off, or with a flag that is missing or false, the history is unchanged. The fallback signal never raises an alert. |
| Orchestrator.BannerMatchesAlert | App.tsx:68 | The merged signal shows the panel's sniper banner (AnalysisView.tsx:94) exactly when the reasoning pass flagged it. With the switch on, an alert is posted exactly when the banner shows. |
| Orchestrator.PanelsThroughACycle | App.tsx:17-21 | The initial state shows the upload prompt, the loading state the loading panel, a success the merged signal, and a failed call its error. |
| Orchestrator.TradingApp.constructor | App.tsx:15-26 | Starts on the terminal tab with no image, the idle state, alerts off and the greeting as message "1". |
| Orchestrator.TradingApp.SelectTab | App.tsx:97 | Changes the tab only. |
| Orchestrator.TradingApp.SetAlertsEnabled | App.tsx:26 | Changes the alert switch only. |
| Orchestrator.TradingApp.BeginAnalysis | App.tsx:45 | The state becomes loading, with no result and no error, and nothing else changes. |
| Orchestrator.TradingApp.CompleteAnalysis | App.tsx:56-81 | A thrown reasoning call gives the error state with its message and posts nothing. Otherwise the merged signal is the result and the history is the cycle's history. |
| Orchestrator.TradingApp.RunAnalysis | App.tsx:44-82 | The same as CompleteAnalysis, using the alert switch as it was when the cycle started. |
| Orchestrator.TradingApp.HandleFileChange | App.tsx:30-42 | With no file nothing changes. Otherwise the image is kept, the terminal tab is shown and the analysis runs on it. |

## Left out

- The model calls themselves, their prompts, the chat session (`sendChatMessage`) and the SDK. A call is an input: either the response or the message of what it threw.
- `JSON.parse` is a parameter that returns a well-typed value or nothing. A reply that parses to something of the wrong shape is not modelled.
- The concurrency of `Promise.all` is left out. The two calls' outcomes are given together, so a result that arrives after a newer upload is not modelled. Each handler sees the state as the previous one left it, with no React batching and no stale closures.
- File reading (`FileReader`) is left out: the selected file is given as its data URL, or none.
- Number formatting is left out: `toFixed(2)`, `toLocaleTimeString` and the `Date.now()` clock. The clock is an input, and the readout holds the price and the minute offset instead of their text.
- The ruler reads the container's `clientHeight` (InteractiveChartInspector.tsx:95), while the crosshair reads the bounding rectangle's height (InteractiveChartInspector.tsx:58, 74). The model uses one `Rect.height` for both, so a container whose two heights differ (borders, transforms) is not modelled.
- IEEE floating point is left out: prices are exact reals. `ChartInspector.Measure` gives no percent where the start price is 0, where JavaScript would give an infinity or NaN. A container of zero width or height is excluded by the `HasArea` requirement, because the component divides by both dimensions without a check.
- The merge is modelled on values: the parsed signal is a fresh object that nothing else references, so mutating it in place is the same as building the merged copy.
- Timers are left out: the notice in `AnalysisView.SignalPanelState.HandleAction` is not cleared after 3 seconds.
- Rendering is left out: the TradingView widget, the Recharts chart and the Header and ChatInterface components.
- The summary panel's loading flag and its `lastUpdated` time are left out.
