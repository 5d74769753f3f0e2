/**
 * The application's records (types.ts), as values.
 *
 * JSON-derived numbers are `real`; optional fields are `Option`s; the string
 * unions of the TypeScript declarations become datatypes.
 */
module Types {
  import opened Wrappers

  /** The recommendation of a signal: 'COMPRA' | 'VENTA' | 'ESPERA'. */
  datatype Action = Compra | Venta | Espera

  /** The literal the application shows and sends for an action. */
  function ActionName(a: Action): string {
    match a
    case Compra => "COMPRA"
    case Venta => "VENTA"
    case Espera => "ESPERA"
  }

  /** 'bullish' | 'bearish' | 'neutral'. */
  datatype PatternType = Bullish | Bearish | Neutral

  /** 'High' | 'Medium' | 'Low'. */
  datatype Reliability = High | Medium | Low

  datatype DetectedPattern = DetectedPattern(name: string, kind: PatternType, reliability: Reliability)

  /** The price axis the reasoning pass read off the image. */
  datatype ChartMetadata = ChartMetadata(minPrice: real, maxPrice: real, detectedAsset: Option<string>)

  /** One digitized sample: `x` is a horizontal position in percent of the width (0 to 100),
      `price` the estimated absolute price there. Neither range is enforced by the code. */
  datatype ChartVectorPoint = ChartVectorPoint(x: real, price: real)

  /** The digitizer's reconstruction of the chart and its own price axis. */
  datatype ChartVectorData = ChartVectorData(points: seq<ChartVectorPoint>, minPrice: real, maxPrice: real)

  /** The merged analysis. `confidence` is documented as 0 to 100 but nothing enforces it. */
  datatype TradingSignal = TradingSignal(
    action: Action,
    confidence: real,
    patterns: seq<DetectedPattern>,
    stopLoss: string,
    takeProfit: string,
    reasoning: string,
    rawText: Option<string>,
    isSniperAlert: Option<bool>,
    chartMetadata: Option<ChartMetadata>,
    vectorData: Option<ChartVectorData>)

  /** 'user' | 'model'. */
  datatype Role = User | Model

  datatype ChatMessage = ChatMessage(id: string, role: Role, text: string, timestamp: int, isAlert: Option<bool>)

  /** The analysis panel's state: a loading flag, a nullable result and a nullable error message. */
  datatype AnalysisState = AnalysisState(isLoading: bool, result: Option<TradingSignal>, error: Option<string>)

  /** 'bullish' | 'bearish' | 'neutral' and 'High' | 'Medium' | 'Low' for news. */
  datatype NewsItem = NewsItem(title: string, summary: string, sentiment: PatternType, impact: Reliability)
}
